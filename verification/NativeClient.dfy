/**
 `NativeClient`: the core client, the hand-off queue and the readers.

 `start` and `stop` run under the native lifecycle mutex; `read` and
 `wait_for_first_sample` run without it, check by check, in any number of threads.
 The core client is seen through `ClientMoves`: its visible moves are steps of
 this machine, and the sample callback pushes to the queue.
 */
module NativeClient {
  import opened ClientData
  import opened ClientMoves
  import Queues = SampleQueues

  // ---------------------------------------------------------------------
  // State
  // ---------------------------------------------------------------------

  /** A queued sample: its place among the samples handed out over the client's
      life, and the run, counted from 1, whose worker pushed it. */
  datatype Item = Item(sample: Sample, place: nat, run: nat)

  type Queue = Queues.Queue<Item>
  type Result = Queues.ReadResult<Item>

  /** What the holder of the native lifecycle mutex does next. */
  datatype Section =
    | StartLower | StartClose | StartReset | StartCore | StartRaise | StartAbort
    | StopLower | StopClose | StopCore

  /** `entry`: how many runs had been started when the mutex was taken; `restarts`:
      whether the client was running then. */
  datatype Holder = Holder(tid: Tid, section: Section, entry: nat, restarts: bool)

  datatype ReadPoint = ReadRunning | ReadFault | ReadQueue | RereadRunning | RereadFault
  datatype WaitPoint = WaitRunning | WaitFault | WaitGeneration | WaitCore | WaitConfirm(first: bool)

  /** A call, with the queue generation it captured. */
  datatype NativeCall =
    | Idle
    | StartCall
    | StopCall
    | Holding
    | Reading(generation: nat, point: ReadPoint)
    | HasRead(generation: nat, result: Result)
    | Waiting(generation: nat, at: WaitPoint)
    | HasWaited(generation: nat, answer: bool)
    | HasStarted(ok: bool)
    | HasStopped

  /** For every successful core start the queue generation it found and how many
      samples its worker has pushed; and what readers have taken. */
  datatype Log = Log(born: seq<nat>, pushes: seq<nat>, taken: seq<Item>)

  datatype Native = Native(
    core: Facade, queue: Queue, running: bool, lock: Option<Holder>, log: Log, calls: map<Tid, NativeCall>)

  function Initial(capacity: nat): Native {
    Native(Facade(false, false, true, false, 0), Queues.Queue(capacity, [], 0, 0, false), false, None,
           Log([], [], []), map[])
  }

  function CallIn(n: Native, t: Tid): NativeCall {
    if t in n.calls then n.calls[t] else Idle
  }

  predicate Holds(n: Native, t: Tid, section: Section) {
    n.lock.Some? && n.lock.value.tid == t && n.lock.value.section == section
  }

  function Lock(n: Native, t: Tid, section: Section): Native {
    n.(lock := Some(Holder(t, section, |n.log.born|, n.running)))
  }

  function Enter(n: Native, section: Section): Native
    requires n.lock.Some?
  {
    n.(lock := Some(n.lock.value.(section := section)))
  }

  function SetCall(n: Native, t: Tid, c: NativeCall): Native {
    n.(calls := n.calls[t := c])
  }

  // ---------------------------------------------------------------------
  // start and stop
  // ---------------------------------------------------------------------

  datatype LifeAction =
    | CallsStart
    | StartLocks
    | StartLowers
    | StartCloses
    | StartResets
    | StartRaises
    | StartAborts
    | CallsStop
    | StopLocks
    | StopLowers
    | StopCloses

  predicate LifeCan(n: Native, t: Tid, a: LifeAction) {
    match a
    case CallsStart => CallIn(n, t).Idle?
    case StartLocks => CallIn(n, t).StartCall? && n.lock.None?
    case StartLowers => Holds(n, t, StartLower)
    case StartCloses => Holds(n, t, StartClose)
    case StartResets => Holds(n, t, StartReset)
    case StartRaises => Holds(n, t, StartRaise)
    case StartAborts => Holds(n, t, StartAbort)
    case CallsStop => CallIn(n, t).Idle?
    case StopLocks => CallIn(n, t).StopCall? && n.lock.None?
    case StopLowers => Holds(n, t, StopLower)
    case StopCloses => Holds(n, t, StopClose)
  }

  function LifeDo(n: Native, t: Tid, a: LifeAction): Native
    requires LifeCan(n, t, a)
  {
    match a
    case CallsStart => SetCall(n, t, StartCall)
    case StartLocks =>
      if n.running && !n.core.faulted then SetCall(n, t, HasStarted(true))
      else SetCall(Lock(n, t, StartLower), t, Holding)
    case StartLowers => Enter(n.(running := false), StartClose)
    case StartCloses => Enter(n.(queue := Queues.Close(n.queue)), StartReset)
    case StartResets => Enter(n.(queue := Queues.Reset(n.queue)), StartCore)
    case StartRaises => SetCall(n.(running := true, lock := None), t, HasStarted(true))
    case StartAborts =>
      SetCall(n.(running := false, queue := Queues.Close(n.queue), lock := None), t, HasStarted(false))
    case CallsStop => SetCall(n, t, StopCall)
    case StopLocks => SetCall(Lock(n, t, StopLower), t, Holding)
    case StopLowers => Enter(n.(running := false), StopClose)
    case StopCloses => Enter(n.(queue := Queues.Close(n.queue)), StopCore)
  }

  // ---------------------------------------------------------------------
  // Moves of the core client
  // ---------------------------------------------------------------------

  /** The callback only pushes, so it never calls its own client. */
  predicate Admits(n: Native, l: Label) {
    match l
    case Opens(t) => Holds(n, t, StartCore)
    case Spawns(t) => Holds(n, t, StartCore)
    case Undoes(t) => Holds(n, t, StartCore)
    case GivesUp(t) => Holds(n, t, StartCore)
    case Refuses(t) => Holds(n, t, StartCore)
    case StopReturns(t) => Holds(n, t, StopCore)
    case Answers(t, _) => CallIn(n, t).Waiting? && CallIn(n, t).at.WaitCore?
    case CallsItself(_) => false
    case _ => true
  }

  function Bump(pushes: seq<nat>): seq<nat> {
    if pushes == [] then [] else pushes[|pushes| - 1 := pushes[|pushes| - 1] + 1]
  }

  function CoreDo(n: Native, l: Label, core: Facade): Native
    requires Admits(n, l)
  {
    var n' := n.(core := core);
    match l
    case Takes(sample, place) =>
      n'.(queue := Queues.Push(n.queue, Item(sample, place, |n.log.born|)), log := n.log.(pushes := Bump(n.log.pushes)))
    case Spawns(t) =>
      Enter(n'.(log := n.log.(born := n.log.born + [n.queue.generation], pushes := n.log.pushes + [0])), StartRaise)
    case GivesUp(t) => Enter(n', StartAbort)
    case Refuses(t) => Enter(n', StartAbort)
    case StopReturns(t) => SetCall(n'.(lock := None), t, HasStopped)
    case Answers(t, first) => SetCall(n', t, Waiting(CallIn(n, t).generation, WaitConfirm(first)))
    case _ => n'
  }

  // ---------------------------------------------------------------------
  // read and wait_for_first_sample
  // ---------------------------------------------------------------------

  datatype ReadAction =
    | CallsRead
    | ReadsRunning
    | ReadsFault
    | Pops
    | ReadsRunningAgain
    | ReadsFaultAgain(expired: bool)
    | CallsWait
    | WaitsOnRunning
    | WaitsOnFault
    | WaitsOnGeneration
    | Confirms(expired: bool)
    | Leaves

  predicate ReadCan(n: Native, t: Tid, a: ReadAction) {
    var c := CallIn(n, t);
    match a
    case CallsRead => c.Idle?
    case ReadsRunning => c.Reading? && c.point.ReadRunning?
    case ReadsFault => c.Reading? && c.point.ReadFault?
    case Pops => c.Reading? && c.point.ReadQueue?
    case ReadsRunningAgain => c.Reading? && c.point.RereadRunning?
    case ReadsFaultAgain(_) => c.Reading? && c.point.RereadFault?
    case CallsWait => c.Idle?
    case WaitsOnRunning => c.Waiting? && c.at.WaitRunning?
    case WaitsOnFault => c.Waiting? && c.at.WaitFault?
    case WaitsOnGeneration => c.Waiting? && c.at.WaitGeneration?
    case Confirms(_) => c.Waiting? && c.at.WaitConfirm?
    case Leaves => c.HasRead? || c.HasWaited? || c.HasStarted? || c.HasStopped?
  }

  /** Where the call goes, pops apart. */
  function ReadNext(n: Native, t: Tid, a: ReadAction): NativeCall
    requires ReadCan(n, t, a) && !a.Pops?
  {
    var c := CallIn(n, t);
    match a
    case CallsRead => Reading(n.queue.generation, ReadRunning)
    case ReadsRunning =>
      if n.running then Reading(c.generation, ReadFault) else HasRead(c.generation, Queues.Closed)
    case ReadsFault =>
      if n.core.faulted then HasRead(c.generation, Queues.Closed) else Reading(c.generation, ReadQueue)
    case ReadsRunningAgain =>
      if n.running then Reading(c.generation, RereadFault) else HasRead(c.generation, Queues.Closed)
    case ReadsFaultAgain(expired) =>
      if n.core.faulted then HasRead(c.generation, Queues.Closed)
      else if expired then HasRead(c.generation, Queues.Timeout)
      else Reading(c.generation, ReadRunning)
    case CallsWait => Waiting(n.queue.generation, WaitRunning)
    case WaitsOnRunning => if n.running then Waiting(c.generation, WaitFault) else HasWaited(c.generation, false)
    case WaitsOnFault =>
      if n.core.faulted then HasWaited(c.generation, false) else Waiting(c.generation, WaitGeneration)
    case WaitsOnGeneration =>
      if n.queue.generation != c.generation then HasWaited(c.generation, false) else Waiting(c.generation, WaitCore)
    case Confirms(expired) =>
      if n.queue.generation != c.generation then HasWaited(c.generation, false)
      else if c.at.first then HasWaited(c.generation, true)
      else if expired then HasWaited(c.generation, false)
      else Waiting(c.generation, WaitRunning)
    case Leaves => Idle
  }

  /** One slice of waiting on the queue. */
  function Pop(n: Native, t: Tid): Native
    requires CallIn(n, t).Reading?
  {
    var g := CallIn(n, t).generation;
    var (queue, result) := Queues.Read(n.queue, g);
    var n' := n.(queue := queue);
    match result
    case Sample(x) => SetCall(n'.(log := n.log.(taken := n.log.taken + [x])), t, HasRead(g, result))
    case Closed => SetCall(n', t, HasRead(g, result))
    case Timeout => SetCall(n', t, Reading(g, RereadRunning))
  }

  function ReadDo(n: Native, t: Tid, a: ReadAction): Native
    requires ReadCan(n, t, a)
  {
    if a.Pops? then Pop(n, t) else SetCall(n, t, ReadNext(n, t, a))
  }

  // ---------------------------------------------------------------------
  // The machine
  // ---------------------------------------------------------------------

  datatype NativeAction =
    | Life(life: LifeAction)
    | CoreMove(move: Label, core: Facade)
    | Read(read: ReadAction)

  predicate NativeCan(n: Native, t: Tid, a: NativeAction) {
    match a
    case Life(x) => LifeCan(n, t, x)
    case CoreMove(l, core) => Moves(n.core, l, core) && Admits(n, l)
    case Read(x) => ReadCan(n, t, x)
  }

  function NativeDo(n: Native, t: Tid, a: NativeAction): Native
    requires NativeCan(n, t, a)
  {
    match a
    case Life(x) => LifeDo(n, t, x)
    case CoreMove(l, core) => CoreDo(n, l, core)
    case Read(x) => ReadDo(n, t, x)
  }

  // ---------------------------------------------------------------------
  // The invariant
  // ---------------------------------------------------------------------

  /** The open queue belongs to the run started last. */
  predicate RunIsCurrent(n: Native) {
    n.log.born != [] && n.log.born[|n.log.born| - 1] == n.queue.generation
  }

  ghost predicate LogInv(log: Log, generation: nat) {
    && |log.pushes| == |log.born|
    && (forall i, j :: 0 <= i < j < |log.born| ==> log.born[i] < log.born[j])
    && (forall i :: 0 <= i < |log.born| ==> log.born[i] <= generation)
  }

  predicate LowersRunning(section: Section) {
    !section.StartLower? && !section.StopLower?
  }

  /** Sections of `start` before the new worker exists. */
  predicate BeforeSpawn(section: Section) {
    section.StartLower? || section.StartClose? || section.StartReset? || section.StartCore?
  }

  predicate SectionOk(n: Native, section: Section) {
    && (LowersRunning(section) ==> !n.running)
    && (BeforeSpawn(section) ==> n.core.live ==> n.core.faulted)
    && (section.StartReset? ==> n.queue.closed && !RunIsCurrent(n))
    && (section.StartCore? ==> !n.queue.closed && n.queue.samples == [] && !RunIsCurrent(n))
    && (section.StartRaise? ==> !n.queue.closed && RunIsCurrent(n))
    && (section.StartAbort? ==> !n.core.live)
    && (section.StopLower? || section.StopClose? ==> n.core.live && !n.queue.closed ==> RunIsCurrent(n))
    && (section.StopCore? ==> n.queue.closed)
  }

  /** How many runs have been started since the mutex was taken; and only a restart
      of a faulted client meets a worker. */
  predicate EntryOk(n: Native, h: Holder) {
    && |n.log.born| == h.entry + (if h.section.StartRaise? then 1 else 0)
    && (BeforeSpawn(h.section) && n.core.live ==> h.restarts)
  }

  predicate RunningInv(n: Native) {
    && (n.running ==> !n.queue.closed && RunIsCurrent(n))
    && (n.lock.None? ==> n.core.live ==> n.running)
    && (n.lock.Some? ==> SectionOk(n, n.lock.value.section) && EntryOk(n, n.lock.value))
  }

  /** A live worker belongs to the last run, and what it reports it has pushed. */
  predicate PushInv(n: Native) {
    var born, pushes := n.log.born, n.log.pushes;
    && (n.core.live || n.core.returned ==> born != [])
    && (n.core.returned ==> pushes != [] && pushes[|pushes| - 1] > 0)
    && (RunIsCurrent(n) && n.core.delivered ==> pushes != [] && pushes[|pushes| - 1] > 0)
  }

  ghost predicate QueueInv(n: Native) {
    && 0 < n.queue.capacity && |n.queue.samples| <= n.queue.capacity
    && (forall i {:trigger n.queue.samples[i]} :: 0 <= i < |n.queue.samples| ==> n.queue.samples[i].run == |n.log.born|)
    && (!n.queue.closed && n.queue.samples != [] ==> RunIsCurrent(n))
  }

  ghost predicate Ascending(items: seq<Item>, bound: nat) {
    && (forall i, j :: 0 <= i < j < |items| ==> items[i].place < items[j].place)
    && (forall i :: 0 <= i < |items| ==> items[i].place <= bound)
  }

  /** What a call knows of the run its captured generation stands for. */
  predicate CallOk(n: Native, c: NativeCall) {
    var born, pushes := n.log.born, n.log.pushes;
    match c
    case Reading(g, _) => g <= n.queue.generation
    case HasRead(g, result) =>
      result.Sample? ==> 0 < result.sample.run <= |born| && born[result.sample.run - 1] == g
    case Waiting(g, at) =>
      && g <= n.queue.generation
      && (g == n.queue.generation && !at.WaitRunning? ==> RunIsCurrent(n))
      && (g == n.queue.generation && at.WaitConfirm? && at.first ==> pushes != [] && pushes[|pushes| - 1] > 0)
    case HasWaited(g, answer) => answer ==> exists k :: 0 <= k < |born| && k < |pushes| && born[k] == g && pushes[k] > 0
    case _ => true
  }

  ghost predicate NativeInv(n: Native) {
    && LogInv(n.log, n.queue.generation)
    && RunningInv(n) && PushInv(n) && QueueInv(n)
    && Ascending(n.log.taken + n.queue.samples, n.core.place)
    && (forall t {:trigger CallIn(n, t)} :: CallOk(n, CallIn(n, t)))
  }

  // ---------------------------------------------------------------------
  // Calls outlast other threads
  // ---------------------------------------------------------------------

  ghost predicate Outgrows(n: Native, n': Native) {
    var born, born' := n.log.born, n'.log.born;
    var pushes, pushes' := n.log.pushes, n'.log.pushes;
    && n.queue.generation <= n'.queue.generation
    && |pushes| == |born| <= |born'| == |pushes'|
    && (forall i :: 0 <= i < |born| ==> born'[i] == born[i] && pushes[i] <= pushes'[i])
    && (n'.queue.generation == n.queue.generation && RunIsCurrent(n) ==> |born'| == |born|)
  }

  lemma CallOutlasts(n: Native, n': Native, c: NativeCall)
    requires CallOk(n, c) && Outgrows(n, n')
    ensures CallOk(n', c)
  {
    if c.HasWaited? && c.answer {
      var k :| 0 <= k < |n.log.born| && k < |n.log.pushes| && n.log.born[k] == c.generation && n.log.pushes[k] > 0;
      assert n'.log.born[k] == c.generation && n'.log.pushes[k] > 0;
    }
  }

  lemma CallsOutlast(n: Native, n': Native, t: Tid)
    requires NativeInv(n) && Outgrows(n, n') && CallOk(n', CallIn(n', t))
    requires forall x {:trigger CallIn(n', x)} :: x != t ==> CallIn(n', x) == CallIn(n, x)
    ensures forall x {:trigger CallIn(n', x)} :: CallOk(n', CallIn(n', x))
  {
    forall x {:trigger CallIn(n', x)} | x != t ensures CallOk(n', CallIn(n', x)) {
      CallOutlasts(n, n', CallIn(n, x));
    }
  }

  // ---------------------------------------------------------------------
  // Every step keeps it
  // ---------------------------------------------------------------------

  lemma LifeKeepsData(n: Native, t: Tid, a: LifeAction)
    requires NativeInv(n) && LifeCan(n, t, a)
    ensures
      var n' := LifeDo(n, t, a);
      && LogInv(n'.log, n'.queue.generation) && RunningInv(n') && PushInv(n') && QueueInv(n')
      && Ascending(n'.log.taken + n'.queue.samples, n'.core.place) && Outgrows(n, n')
  {
    if a.StartResets? {
      AscendingPrefix(n.log.taken, n.queue.samples, n.core.place);
      assert n.log.taken + [] == n.log.taken;
    }
  }

  lemma AscendingPrefix(xs: seq<Item>, ys: seq<Item>, bound: nat)
    requires Ascending(xs + ys, bound)
    ensures Ascending(xs, bound)
  {
    assert forall i :: 0 <= i < |xs| ==> xs[i] == (xs + ys)[i];
  }

  lemma LifeKeepsNative(n: Native, t: Tid, a: LifeAction)
    requires NativeInv(n) && LifeCan(n, t, a)
    ensures NativeInv(LifeDo(n, t, a))
  {
    LifeKeepsData(n, t, a);
    CallOutlasts(n, LifeDo(n, t, a), CallIn(n, t));
    CallsOutlast(n, LifeDo(n, t, a), t);
  }

  lemma AscendingPush(taken: seq<Item>, queue: Queue, x: Item, bound: nat)
    requires Ascending(taken + queue.samples, bound) && bound < x.place
    ensures Ascending(taken + Queues.Push(queue, x).samples, x.place)
  {
    var samples := Queues.Push(queue, x).samples;
    var before, after := taken + queue.samples, taken + samples;
    var dropped := |before| + 1 - |after|;
    assert forall i {:trigger after[i]} :: 0 <= i < |after| - 1 ==>
      after[i] == before[if i < |taken| then i else i + dropped];
    assert after[|after| - 1] == x;
  }

  lemma PushKeepsQueue(n: Native, sample: Sample, place: nat)
    requires NativeInv(n) && n.core.live && !n.core.faulted
    ensures
      var queue := Queues.Push(n.queue, Item(sample, place, |n.log.born|));
      QueueInv(n.(queue := queue))
  {
  }

  lemma TakeKeepsNative(n: Native, sample: Sample, place: nat, core: Facade)
    requires NativeInv(n) && Moves(n.core, Takes(sample, place), core)
    ensures NativeInv(CoreDo(n, Takes(sample, place), core))
  {
    var n' := CoreDo(n, Takes(sample, place), core);
    AscendingPush(n.log.taken, n.queue, Item(sample, place, |n.log.born|), n.core.place);
    PushKeepsQueue(n, sample, place);
    forall x {:trigger CallIn(n', x)} ensures CallOk(n', CallIn(n', x)) {
      CallOutlasts(n, n', CallIn(n, x));
    }
  }

  function LabelThread(l: Label): Tid {
    match l
    case Opens(t) => t
    case Spawns(t) => t
    case Undoes(t) => t
    case GivesUp(t) => t
    case Refuses(t) => t
    case StopReturns(t) => t
    case Answers(t, _) => t
    case CallsItself(t) => t
    case _ => 0
  }

  lemma MoveKeepsData(n: Native, l: Label, core: Facade)
    requires NativeInv(n) && Moves(n.core, l, core) && Admits(n, l) && !l.Takes?
    ensures
      var n' := CoreDo(n, l, core);
      && LogInv(n'.log, n'.queue.generation) && RunningInv(n') && PushInv(n') && QueueInv(n')
      && Ascending(n'.log.taken + n'.queue.samples, n'.core.place) && Outgrows(n, n')
  {
  }

  lemma MoveKeepsNative(n: Native, l: Label, core: Facade)
    requires NativeInv(n) && Moves(n.core, l, core) && Admits(n, l)
    ensures NativeInv(CoreDo(n, l, core))
  {
    if l.Takes? {
      TakeKeepsNative(n, l.sample, l.place, core);
    } else {
      var t := LabelThread(l);
      MoveKeepsData(n, l, core);
      CallOutlasts(n, CoreDo(n, l, core), CallIn(n, t));
      CallsOutlast(n, CoreDo(n, l, core), t);
    }
  }

  /** A pop moves at most the front of the queue to what was taken. */
  lemma PopMoves(n: Native, t: Tid)
    requires ReadCan(n, t, Pops)
    ensures
      var n' := Pop(n, t);
      && n' == n.(queue := n.queue.(samples := n'.queue.samples), log := n.log.(taken := n'.log.taken),
                  calls := n'.calls)
      && n'.log.taken + n'.queue.samples == n.log.taken + n.queue.samples
      && (n'.queue.samples == n.queue.samples || (n.queue.samples != [] && n'.queue.samples == n.queue.samples[1..]))
  {
  }

  lemma PopKeepsData(n: Native, t: Tid)
    requires NativeInv(n) && ReadCan(n, t, Pops)
    ensures
      var n' := Pop(n, t);
      && LogInv(n'.log, n'.queue.generation) && RunningInv(n') && PushInv(n') && QueueInv(n')
      && Ascending(n'.log.taken + n'.queue.samples, n'.core.place) && Outgrows(n, n')
  {
    PopMoves(n, t);
  }

  /** The sample a read obtains was pushed by the worker of the run that opened
      the generation the read captured, and that run's queue is still open. */
  lemma ReadIsolation(n: Native, t: Tid)
    requires NativeInv(n) && ReadCan(n, t, Pops)
    ensures
      var g := CallIn(n, t).generation;
      var result := Queues.Read(n.queue, g).1;
      result.Sample? ==>
        && !n.queue.closed && n.queue.generation == g
        && result.sample.run == |n.log.born| > 0 && n.log.born[result.sample.run - 1] == g
  {
    assert n.queue.samples != [] ==> n.queue.samples[0].run == |n.log.born|;
  }

  lemma PopKeepsNative(n: Native, t: Tid)
    requires NativeInv(n) && ReadCan(n, t, Pops)
    ensures NativeInv(Pop(n, t))
  {
    PopKeepsData(n, t);
    ReadIsolation(n, t);
    CallOutlasts(n, Pop(n, t), CallIn(n, t));
    CallsOutlast(n, Pop(n, t), t);
  }

  lemma ReadKeepsCall(n: Native, t: Tid, a: ReadAction)
    requires NativeInv(n) && ReadCan(n, t, a) && !a.Pops?
    ensures CallOk(n, ReadNext(n, t, a))
  {
    assert CallOk(n, CallIn(n, t));
    if a.Confirms? && ReadNext(n, t, a).HasWaited? && ReadNext(n, t, a).answer {
      var k := |n.log.born| - 1;
      assert n.log.born[k] == n.queue.generation && n.log.pushes[k] > 0;
    }
  }

  lemma SetCallKeepsNative(n: Native, t: Tid, c: NativeCall)
    requires NativeInv(n) && CallOk(n, c)
    ensures NativeInv(SetCall(n, t, c))
  {
    CallsOutlast(n, SetCall(n, t, c), t);
  }

  lemma NativeStarts(capacity: nat)
    requires 0 < capacity
    ensures NativeInv(Initial(capacity))
  {
  }

  lemma NativeKept(n: Native, t: Tid, a: NativeAction)
    requires NativeInv(n) && NativeCan(n, t, a)
    ensures NativeInv(NativeDo(n, t, a))
  {
    match a
    case Life(x) => LifeKeepsNative(n, t, x);
    case CoreMove(l, core) => MoveKeepsNative(n, l, core);
    case Read(x) =>
      if x.Pops? {
        PopKeepsNative(n, t);
      } else {
        ReadKeepsCall(n, t, x);
        SetCallKeepsNative(n, t, ReadNext(n, t, x));
      }
  }

  // ---------------------------------------------------------------------
  // Every reachable state
  // ---------------------------------------------------------------------

  datatype NativeMove = NativeMove(t: Tid, a: NativeAction)

  ghost predicate NativeReaches(capacity: nat, moves: seq<NativeMove>, n: Native) {
    if moves == [] then n == Initial(capacity)
    else
      var m := moves[|moves| - 1];
      exists p {:trigger NativeCan(p, m.t, m.a)} ::
        NativeReaches(capacity, moves[..|moves| - 1], p) && NativeCan(p, m.t, m.a) && n == NativeDo(p, m.t, m.a)
  }

  lemma {:induction false} EveryNativeState(capacity: nat, moves: seq<NativeMove>, n: Native)
    requires 0 < capacity && NativeReaches(capacity, moves, n)
    ensures NativeInv(n)
  {
    if moves == [] {
      NativeStarts(capacity);
    } else {
      var m := moves[|moves| - 1];
      var p :| NativeReaches(capacity, moves[..|moves| - 1], p) && NativeCan(p, m.t, m.a) && n == NativeDo(p, m.t, m.a);
      EveryNativeState(capacity, moves[..|moves| - 1], p);
      NativeKept(p, m.t, m.a);
    }
  }

  /** From the reset that opens a generation until the new worker exists, no old
      worker can push. */
  lemma OldWorkerCannotPush(
    capacity: nat, moves: seq<NativeMove>, n: Native, t: Tid, sample: Sample, place: nat, core: Facade)
    requires 0 < capacity && NativeReaches(capacity, moves, n)
    requires Holds(n, t, StartCore)
    ensures !Moves(n.core, Takes(sample, place), core)
  {
    EveryNativeState(capacity, moves, n);
  }

  /** The core's `start` never finds the client running. */
  lemma StartIsNeverRefused(capacity: nat, moves: seq<NativeMove>, n: Native, t: Tid, core: Facade)
    requires 0 < capacity && NativeReaches(capacity, moves, n)
    requires Admits(n, Refuses(t))
    ensures !Moves(n.core, Refuses(t), core)
  {
    EveryNativeState(capacity, moves, n);
  }

  /** A finished read that has a sample has one of the run it began in; a true
      answer of `wait_for_first_sample` means that the run it was asked in has
      delivered. */
  lemma FinishedCalls(n: Native, t: Tid)
    requires NativeInv(n)
    ensures
      var c := CallIn(n, t);
      && (c.HasRead? && c.result.Sample? ==>
            0 < c.result.sample.run <= |n.log.born| && n.log.born[c.result.sample.run - 1] == c.generation)
      && (c.HasWaited? && c.answer ==>
            exists k :: 0 <= k < |n.log.born| && n.log.born[k] == c.generation && n.log.pushes[k] > 0)
  {
    assert CallOk(n, CallIn(n, t));
    var c := CallIn(n, t);
    if c.HasWaited? && c.answer {
      var k :| 0 <= k < |n.log.born| && k < |n.log.pushes| && n.log.born[k] == c.generation && n.log.pushes[k] > 0;
      assert n.log.born[k] == c.generation;
    }
  }

  /** In every run, a read obtains a sample only while the generation it captured
      is open, and the sample was pushed by the worker that the start of that
      generation created; whatever a finished read holds is of that worker too. */
  lemma ReadsInEveryRun(capacity: nat, moves: seq<NativeMove>, n: Native, t: Tid)
    requires 0 < capacity && NativeReaches(capacity, moves, n)
    ensures ReadCan(n, t, Pops) ==>
              var g, result := CallIn(n, t).generation, Queues.Read(n.queue, CallIn(n, t).generation).1;
              result.Sample? ==>
                && !n.queue.closed && n.queue.generation == g
                && result.sample.run == |n.log.born| > 0 && n.log.born[result.sample.run - 1] == g
    ensures CallIn(n, t).HasRead? && CallIn(n, t).result.Sample? ==>
              var x := CallIn(n, t).result.sample;
              0 < x.run <= |n.log.born| && n.log.born[x.run - 1] == CallIn(n, t).generation
  {
    EveryNativeState(capacity, moves, n);
    FinishedCalls(n, t);
    if ReadCan(n, t, Pops) {
      ReadIsolation(n, t);
    }
  }

  /** One slice of a read obtains the oldest queued sample whenever its generation's
      queue is open and not empty, goes on waiting when it is empty, and else finds it
      closed. */
  lemma PopObtains(n: Native, t: Tid)
    requires ReadCan(n, t, Pops)
    ensures
      var c, n' := CallIn(n, t), Pop(n, t);
      CallIn(n', t)
        == if n.queue.closed || n.queue.generation != c.generation then HasRead(c.generation, Queues.Closed)
           else if n.queue.samples != [] then HasRead(c.generation, Queues.Sample(n.queue.samples[0]))
           else Reading(c.generation, RereadRunning)
    ensures
      var c, n' := CallIn(n, t), Pop(n, t);
      if !n.queue.closed && n.queue.generation == c.generation && n.queue.samples != []
      then n'.queue.samples == n.queue.samples[1..] && n'.log.taken == n.log.taken + [n.queue.samples[0]]
      else n'.queue == n.queue && n'.log == n.log
  {
  }

  /** A sample the callback takes is queued last, and only a full queue loses one. */
  lemma TakesAreQueued(n: Native, sample: Sample, place: nat, core: Facade)
    requires NativeInv(n)
    ensures
      var n', x := CoreDo(n, Takes(sample, place), core), Item(sample, place, |n.log.born|);
      var kept := if |n.queue.samples| == n.queue.capacity then n.queue.samples[1..] else n.queue.samples;
      && n'.queue.samples == kept + [x]
      && n'.queue.closed == n.queue.closed && n'.queue.generation == n.queue.generation
  {
  }

  /** `wait_for_first_sample` answers true if and only if the core reports a first sample
      and the queue generation still is the one captured. */
  lemma WaitAnswers(n: Native, t: Tid, expired: bool)
    requires ReadCan(n, t, Confirms(expired))
    ensures
      var c := CallIn(n, t);
      (ReadNext(n, t, Confirms(expired)) == HasWaited(c.generation, true))
      <==> (c.at.first && n.queue.generation == c.generation)
  {
  }

  lemma ConfirmedIsCurrent(n: Native, t: Tid, expired: bool)
    requires NativeInv(n) && ReadCan(n, t, Confirms(expired))
    ensures
      var answer := ReadNext(n, t, Confirms(expired));
      answer.HasWaited? && answer.answer ==>
        && answer.generation == n.queue.generation && RunIsCurrent(n)
        && |n.log.pushes| == |n.log.born| && n.log.pushes[|n.log.born| - 1] > 0
  {
    assert CallOk(n, CallIn(n, t));
  }

  /** At the moment of a true answer, the run it was asked in is still the current
      one and has pushed a sample. */
  lemma TrueAnswerIsCurrent(capacity: nat, moves: seq<NativeMove>, n: Native, t: Tid, expired: bool)
    requires 0 < capacity && NativeReaches(capacity, moves, n) && ReadCan(n, t, Confirms(expired))
    ensures
      var answer := ReadNext(n, t, Confirms(expired));
      answer.HasWaited? && answer.answer ==>
        && answer.generation == n.queue.generation && RunIsCurrent(n)
        && |n.log.pushes| == |n.log.born| && n.log.pushes[|n.log.born| - 1] > 0
  {
    EveryNativeState(capacity, moves, n);
    ConfirmedIsCurrent(n, t, expired);
  }

  /** No two runs share a generation, so the run of a generation is one run. */
  lemma GenerationsAreDistinct(capacity: nat, moves: seq<NativeMove>, n: Native, i: nat, j: nat)
    requires 0 < capacity && NativeReaches(capacity, moves, n)
    requires i < |n.log.born| && j < |n.log.born| && n.log.born[i] == n.log.born[j]
    ensures i == j
  {
    EveryNativeState(capacity, moves, n);
  }
}
