/**
 The Python client on top of the native client, step by step.

 Where `PythonClient` has a constrained view of the native client, this machine has
 the native client itself: a Python step that calls it begins or ends a native call
 of the same thread, and native steps go on in between.  What Python assumed of the
 native client is proved here, so that every run of the two together is a run of
 the Python machine.
 */
module PythonNative {
  import opened ClientData
  import opened ClientMoves
  import opened NativeView
  import opened NativePromises
  import opened PythonRuns
  import Py = PythonClient
  import Native = NativeClient

  type Python = Py.Python
  type Item = Native.Item

  datatype Joint = Joint(p: Python, n: Native.Native)

  // ---------------------------------------------------------------------
  // Python steps and the native calls they make
  // ---------------------------------------------------------------------

  /** What a Python step does to the native call of its thread. */
  datatype Part =
    | Alone
    | BeginStart
    | BeginStop
    | BeginRead
    | EndStart
    | StartToStop(returned: bool)       // the rollback's stop follows the start
    | EndStop
    | EndRead(result: Py.Result)
    | AbandonRead

  function StartPart(a: Py.StartAction): Part {
    match a
    case StartsIterator => BeginStart
    case StartsCallback(_) => BeginStart
    case IteratorStarted => EndStart
    case CallbackStarted => EndStart
    case IteratorStartFails => StartToStop(false)
    case CallbackStartFails(slips) => StartToStop(slips)
    case RollbackEnds => EndStop
    case _ => Alone
  }

  function StopPart(p: Python, a: Py.StopAction): Part {
    match a
    case StopLocks => if p.fields.running then BeginStop else Alone
    case StopEnds => EndStop
    case _ => Alone
  }

  function IterPart(p: Python, t: Tid, a: Py.IterAction): Part
    requires Py.IterMay(p, t, a)
  {
    match a
    case IterReads => BeginRead
    case IterReceives(result) => EndRead(result)
    case IterRaises => if Py.CallOf(p, t).at.IterInRead? then AbandonRead else Alone
    case IterFinds(faulted) => if Py.TokenIsCurrent(p, Py.CallOf(p, t).token) && faulted then BeginStop else Alone
    case IterStopEnds => EndStop
    case _ => Alone
  }

  function DispatchPart(p: Python, t: Tid, a: Py.DispatchAction): Part
    requires Py.DispatchMay(p, t, a)
  {
    match a
    case Reads => BeginRead
    case Receives(result) => EndRead(result)
    case Raises => if p.dispatchers[t].at.InRead? then AbandonRead else Alone
    case RecordsError => if Py.RunIsCurrent(p, p.dispatchers[t].run) then BeginStop else Alone
    case FinishesClosed(_) => if Py.RunIsCurrent(p, p.dispatchers[t].run) then BeginStop else Alone
    case DispatchStopEnds => EndStop
    case _ => Alone
  }

  function PartOf(p: Python, t: Tid, a: Py.PyAction): Part
    requires Py.PyMay(p, t, a)
  {
    match a
    case Start(x) => StartPart(x)
    case Stop(x) => StopPart(p, x)
    case Iterate(x) => IterPart(p, t, x)
    case DispatchStep(x) => DispatchPart(p, t, x)
  }

  predicate PartCan(n: Native.Native, t: Tid, part: Part) {
    var c := Native.CallIn(n, t);
    match part
    case Alone => true
    case BeginStart => c.Idle?
    case BeginStop => c.Idle?
    case BeginRead => c.Idle?
    case EndStart => c == Native.HasStarted(true)
    case StartToStop(returned) => c.HasStarted? && (returned ==> c.ok)
    case EndStop => c.HasStopped?
    case EndRead(result) => c.HasRead? && c.result == result
    case AbandonRead => c.Reading? || c.HasRead?
  }

  function PartDo(n: Native.Native, t: Tid, part: Part): Native.Native {
    match part
    case Alone => n
    case BeginStart => Native.SetCall(n, t, Native.StartCall)
    case BeginStop => Native.SetCall(n, t, Native.StopCall)
    case BeginRead => Native.SetCall(n, t, Native.Reading(n.queue.generation, Native.ReadRunning))
    case StartToStop(_) => Native.SetCall(n, t, Native.StopCall)
    case _ => Native.SetCall(n, t, Native.NativeCall.Idle)
  }

  // ---------------------------------------------------------------------
  // The machine
  // ---------------------------------------------------------------------

  datatype JointAction = Above(a: Py.PyAction) | Below(b: Native.NativeAction)

  /** Whether the native client is faulted is read from it. */
  predicate FaultFits(n: Native.Native, a: Py.PyAction) {
    && (a.Iterate? && a.iter.IterFinds? ==> a.iter.faulted == n.core.faulted)
    && (a.DispatchStep? && a.step.FinishesClosed? ==> a.step.faulted == n.core.faulted)
  }

  /** Native steps of calls that are under way, and of `wait_for_first_sample`, which
      Python passes through. */
  predicate GoesOn(n: Native.Native, t: Tid, b: Native.NativeAction) {
    && (b.Life? ==> !b.life.CallsStart? && !b.life.CallsStop?)
    && (b.Read? ==> !b.read.CallsRead? && (b.read.Leaves? ==> Native.CallIn(n, t).HasWaited?))
  }

  predicate JointCan(j: Joint, t: Tid, a: JointAction) {
    match a
    case Above(x) =>
      && Py.PyMay(j.p, t, x) && !(x.Start? && x.start.NativeEvolves?)
      && PartCan(j.n, t, PartOf(j.p, t, x)) && FaultFits(j.n, x)
    case Below(b) => Native.NativeCan(j.n, t, b) && GoesOn(j.n, t, b)
  }

  function JointDo(j: Joint, t: Tid, a: JointAction): Joint
    requires JointCan(j, t, a)
  {
    match a
    case Above(x) => Joint(Py.PyDo(j.p, t, x), PartDo(j.n, t, PartOf(j.p, t, x)))
    case Below(b) =>
      var n := Native.NativeDo(j.n, t, b);
      Joint(j.p.(native := ViewOf(n)), n)
  }

  // ---------------------------------------------------------------------
  // How the two fit together
  // ---------------------------------------------------------------------

  /** The thread is in a native start or stop. */
  predicate InLife(c: Native.NativeCall) {
    c.StartCall? || c.StopCall? || c.Holding? || c.HasStarted? || c.HasStopped?
  }

  predicate StartSection(section: Native.Section) {
    section.StartLower? || section.StartClose? || section.StartReset? || section.StartCore? || section.StartRaise?
    || section.StartAbort?
  }

  predicate NativeHolds(n: Native.Native, t: Tid, start: bool) {
    n.lock.Some? && n.lock.value.tid == t && StartSection(n.lock.value.section) == start
  }

  /** How far the native start has come that a Python start makes. */
  predicate StartStage(n: Native.Native, t: Tid, entry: View) {
    var c := Native.CallIn(n, t);
    && (c.StartCall? || c.Holding? || c.HasStarted?)
    && (if c.Holding? then NativeHolds(n, t, true) && n.lock.value.entry == |entry.born| && !n.lock.value.restarts
        else n.lock.None?)
    && (c.StartCall? ==> ViewOf(n) == entry)
    && (c.HasStarted? ==> if c.ok then Started(entry, ViewOf(n)) else !n.running)
  }

  predicate StopStage(n: Native.Native, t: Tid) {
    var c := Native.CallIn(n, t);
    && (c.StopCall? || c.Holding? || c.HasStopped?)
    && (if c.Holding? then NativeHolds(n, t, false) else n.lock.None?)
    && (c.HasStopped? ==> !n.running)
  }

  predicate SectionStage(n: Native.Native, t: Tid, section: Py.PySection) {
    match section
    case StartingIterator(entry) => StartStage(n, t, entry)
    case StartingCallback(_, entry) => StartStage(n, t, entry)
    case _ => StopStage(n, t)
  }

  /** Only the holder of `_lock` is in a native start or stop, and as far as its
      section says. */
  ghost predicate LifeMatch(lock: Option<Py.PyHolder>, n: Native.Native) {
    && (forall t {:trigger Native.CallIn(n, t)} ::
          InLife(Native.CallIn(n, t)) ==> lock.Some? && lock.value.tid == t)
    && (if lock.None? then n.lock.None? else SectionStage(n, lock.value.tid, lock.value.section))
  }

  predicate DispatchReads(p: Python, t: Tid) {
    t in p.dispatchers && p.dispatchers[t].at.InRead?
  }

  predicate IterReads(p: Python, t: Tid) {
    Py.CallOf(p, t).Iterating? && Py.CallOf(p, t).at.IterInRead?
  }

  predicate IsReading(c: Native.NativeCall, generation: nat) {
    (c.Reading? || c.HasRead?) && c.generation == generation
  }

  /** The generation a thread reads under, as a dispatcher and as an iterator. */
  function DispatchRead(p: Python, t: Tid): Option<nat> {
    if DispatchReads(p, t) then Some(p.dispatchers[t].at.generation) else None
  }

  function IterRead(p: Python, t: Tid): Option<nat> {
    if IterReads(p, t) then Some(Py.CallOf(p, t).at.generation) else None
  }

  /** The fit of one thread's reads. */
  predicate ReadFit(dispatch: Option<nat>, iter: Option<nat>, c: Native.NativeCall) {
    && (dispatch.Some? ==> IsReading(c, dispatch.value))
    && (iter.Some? ==> IsReading(c, iter.value))
    && (dispatch.None? || iter.None?)
  }

  /** A thread that reads in Python reads in the native client, under the generation
      Python knows of. */
  ghost predicate ReadMatch(p: Python, n: Native.Native) {
    forall t {:trigger Native.CallIn(n, t)} :: ReadFit(DispatchRead(p, t), IterRead(p, t), Native.CallIn(n, t))
  }

  ghost predicate JointInv(j: Joint) {
    && PythonInv(j.p) && Native.NativeInv(j.n)
    && j.p.native == ViewOf(j.n)
    && LifeMatch(j.p.lock, j.n) && ReadMatch(j.p, j.n)
  }

  // ---------------------------------------------------------------------
  // Python's assumptions are met
  // ---------------------------------------------------------------------

  lemma StartPromiseKept(j: Joint, t: Tid, a: Py.StartAction)
    requires JointInv(j) && JointCan(j, t, Above(Py.Start(a)))
    ensures Py.StartCan(j.p, t, a)
  {
  }

  lemma OtherPromisesKept(j: Joint, t: Tid, a: Py.PyAction)
    requires JointInv(j) && JointCan(j, t, Above(a)) && !a.Start?
    ensures Py.PyCan(j.p, t, a)
  {
    ReadKeepsPromise(j.n, t);
    var _ := Native.CallIn(j.n, t);
  }

  lemma PromisesKept(j: Joint, t: Tid, a: Py.PyAction)
    requires JointInv(j) && JointCan(j, t, Above(a))
    ensures Py.PyCan(j.p, t, a)
  {
    if a.Start? {
      StartPromiseKept(j, t, a.start);
    } else {
      OtherPromisesKept(j, t, a);
    }
  }

  // ---------------------------------------------------------------------
  // Python steps keep the fit
  // ---------------------------------------------------------------------

  predicate IsStarting(section: Py.PySection) {
    section.StartingIterator? || section.StartingCallback?
  }

  predicate HeldBy(lock: Option<Py.PyHolder>, t: Tid, starting: bool) {
    lock.Some? && lock.value.tid == t && IsStarting(lock.value.section) == starting
  }

  /** How a Python step moves `_lock`. */
  predicate LockStep(lock: Option<Py.PyHolder>, lock': Option<Py.PyHolder>, t: Tid, part: Part, view: View) {
    match part
    case BeginStart => lock.None? && HeldBy(lock', t, true) && lock'.value.section.entry == view
    case BeginStop => lock.None? && HeldBy(lock', t, false)
    case EndStart => HeldBy(lock, t, true) && lock'.None?
    case StartToStop(_) => HeldBy(lock, t, true) && HeldBy(lock', t, false)
    case EndStop => HeldBy(lock, t, false) && lock'.None?
    case _ => lock' == lock
  }

  lemma StartMovesLock(p: Python, t: Tid, a: Py.StartAction)
    requires Py.StartMay(p, t, a) && !a.NativeEvolves?
    ensures LockStep(p.lock, Py.StartDo(p, t, a).lock, t, StartPart(a), p.native)
    ensures Py.StartDo(p, t, a).native == p.native
  {
  }

  lemma StopMovesLock(p: Python, t: Tid, a: Py.StopAction)
    requires Py.StopMay(p, t, a)
    ensures LockStep(p.lock, Py.StopDo(p, t, a).lock, t, StopPart(p, a), p.native)
    ensures Py.StopDo(p, t, a).native == p.native
  {
  }

  lemma IterMovesLock(p: Python, t: Tid, a: Py.IterAction)
    requires Py.IterMay(p, t, a)
    ensures LockStep(p.lock, Py.IterDo(p, t, a).lock, t, IterPart(p, t, a), p.native)
    ensures Py.IterDo(p, t, a).native == p.native
  {
  }

  lemma DispatchMovesLock(p: Python, t: Tid, a: Py.DispatchAction)
    requires Py.DispatchMay(p, t, a)
    ensures LockStep(p.lock, Py.DispatchDo(p, t, a).lock, t, DispatchPart(p, t, a), p.native)
    ensures Py.DispatchDo(p, t, a).native == p.native
  {
  }

  lemma PythonMovesLock(p: Python, t: Tid, a: Py.PyAction)
    requires Py.PyMay(p, t, a) && !(a.Start? && a.start.NativeEvolves?)
    ensures LockStep(p.lock, Py.PyDo(p, t, a).lock, t, PartOf(p, t, a), p.native)
    ensures Py.PyDo(p, t, a).native == p.native
  {
    match a
    case Start(x) => StartMovesLock(p, t, x);
    case Stop(x) => StopMovesLock(p, t, x);
    case Iterate(x) => IterMovesLock(p, t, x);
    case DispatchStep(x) => DispatchMovesLock(p, t, x);
  }

  lemma PartKeepsLife(lock: Option<Py.PyHolder>, lock': Option<Py.PyHolder>, n: Native.Native, t: Tid, part: Part)
    requires LifeMatch(lock, n) && PartCan(n, t, part) && LockStep(lock, lock', t, part, ViewOf(n))
    ensures LifeMatch(lock', PartDo(n, t, part))
  {
    var n' := PartDo(n, t, part);
    assert forall x {:trigger Native.CallIn(n', x)} :: x != t ==> Native.CallIn(n', x) == Native.CallIn(n, x);
    var _ := Native.CallIn(n, t);
  }

  predicate SameReads(p: Python, p': Python, t: Tid) {
    DispatchRead(p', t) == DispatchRead(p, t) && IterRead(p', t) == IterRead(p, t)
  }

  /** How a Python step moves the reads of its thread. */
  predicate ReadStep(p: Python, p': Python, t: Tid, part: Part) {
    match part
    case BeginRead =>
      || (DispatchRead(p', t) == Some(p.native.generation) && IterRead(p', t) == IterRead(p, t))
      || (IterRead(p', t) == Some(p.native.generation) && DispatchRead(p', t) == DispatchRead(p, t))
    case EndRead(_) => ReadEnds(p, p', t)
    case AbandonRead => ReadEnds(p, p', t)
    case _ => SameReads(p, p', t)
  }

  predicate ReadEnds(p: Python, p': Python, t: Tid) {
    || (DispatchRead(p, t).Some? && DispatchRead(p', t).None? && IterRead(p', t) == IterRead(p, t))
    || (IterRead(p, t).Some? && IterRead(p', t).None? && DispatchRead(p', t) == DispatchRead(p, t))
  }

  ghost predicate OthersSame(p: Python, p': Python, t: Tid) {
    forall x {:trigger DispatchRead(p', x)} {:trigger IterRead(p', x)} :: x != t ==> SameReads(p, p', x)
  }

  /** Whoever holds `_lock` is not reading. */
  predicate HolderReadsNothing(p: Python, t: Tid) {
    Py.HoldsLock(p, t) ==> !IterReads(p, t) && !DispatchReads(p, t)
  }

  /** Calls and dispatchers of other threads are as they were, but for a dispatcher
      that is new or slips past its gate. */
  lemma OthersFrom(p: Python, p': Python, t: Tid)
    requires forall x {:trigger Py.CallOf(p', x)} :: x != t ==> Py.CallOf(p', x) == Py.CallOf(p, x)
    requires forall x {:trigger DispatchReads(p', x)} :: x != t ==>
               DispatchReads(p', x) == DispatchReads(p, x)
               && (DispatchReads(p, x) ==> p'.dispatchers[x] == p.dispatchers[x])
    ensures OthersSame(p, p', t)
  {
    forall x | x != t ensures SameReads(p, p', x) {
      var _ := DispatchReads(p', x);
      var _ := Py.CallOf(p', x);
    }
  }

  /** A start adds a dispatcher at its gate, or lets one slip past it. */
  lemma StartLeavesReaders(p: Python, t: Tid, a: Py.StartAction, x: Tid)
    requires Py.StartMay(p, t, a)
    ensures DispatchReads(Py.StartDo(p, t, a), x) == DispatchReads(p, x)
    ensures DispatchReads(p, x) ==> Py.StartDo(p, t, a).dispatchers[x] == p.dispatchers[x]
  {
  }

  lemma StartMovesReads(p: Python, t: Tid, a: Py.StartAction)
    requires Py.StartMay(p, t, a) && HolderReadsNothing(p, t)
    ensures ReadStep(p, Py.StartDo(p, t, a), t, StartPart(a)) && OthersSame(p, Py.StartDo(p, t, a), t)
  {
    var p' := Py.StartDo(p, t, a);
    forall x {:trigger DispatchReads(p', x)} | x != t
      ensures DispatchReads(p', x) == DispatchReads(p, x)
      ensures DispatchReads(p, x) ==> p'.dispatchers[x] == p.dispatchers[x]
    {
      StartLeavesReaders(p, t, a, x);
    }
    OthersFrom(p, p', t);
  }

  lemma StopMovesReads(p: Python, t: Tid, a: Py.StopAction)
    requires Py.StopMay(p, t, a) && HolderReadsNothing(p, t)
    ensures ReadStep(p, Py.StopDo(p, t, a), t, StopPart(p, a)) && OthersSame(p, Py.StopDo(p, t, a), t)
  {
    OthersFrom(p, Py.StopDo(p, t, a), t);
  }

  lemma IterMovesReads(p: Python, t: Tid, a: Py.IterAction)
    requires Py.IterMay(p, t, a) && HolderReadsNothing(p, t)
    ensures ReadStep(p, Py.IterDo(p, t, a), t, IterPart(p, t, a)) && OthersSame(p, Py.IterDo(p, t, a), t)
  {
    OthersFrom(p, Py.IterDo(p, t, a), t);
  }

  lemma DispatchMovesReads(p: Python, t: Tid, a: Py.DispatchAction)
    requires Py.DispatchMay(p, t, a)
    ensures ReadStep(p, Py.DispatchDo(p, t, a), t, DispatchPart(p, t, a)) && OthersSame(p, Py.DispatchDo(p, t, a), t)
  {
    OthersFrom(p, Py.DispatchDo(p, t, a), t);
  }

  lemma HolderDoesNotRead(j: Joint, t: Tid)
    requires JointInv(j)
    ensures HolderReadsNothing(j.p, t)
  {
    var _ := Native.CallIn(j.n, t);
  }

  lemma PythonMovesReads(j: Joint, t: Tid, a: Py.PyAction)
    requires JointInv(j) && Py.PyMay(j.p, t, a)
    ensures ReadStep(j.p, Py.PyDo(j.p, t, a), t, PartOf(j.p, t, a)) && OthersSame(j.p, Py.PyDo(j.p, t, a), t)
  {
    HolderDoesNotRead(j, t);
    match a
    case Start(x) => StartMovesReads(j.p, t, x);
    case Stop(x) => StopMovesReads(j.p, t, x);
    case Iterate(x) => IterMovesReads(j.p, t, x);
    case DispatchStep(x) => DispatchMovesReads(j.p, t, x);
  }

  lemma PartKeepsReads(p: Python, p': Python, n: Native.Native, t: Tid, part: Part)
    requires ReadMatch(p, n) && PartCan(n, t, part) && p.native.generation == n.queue.generation
    requires ReadStep(p, p', t, part) && OthersSame(p, p', t)
    ensures ReadMatch(p', PartDo(n, t, part))
  {
    var n' := PartDo(n, t, part);
    forall x {:trigger Native.CallIn(n', x)}
      ensures ReadFit(DispatchRead(p', x), IterRead(p', x), Native.CallIn(n', x))
    {
      assert ReadFit(DispatchRead(p, x), IterRead(p, x), Native.CallIn(n, x));
      assert x != t ==> SameReads(p, p', x) && Native.CallIn(n', x) == Native.CallIn(n, x);
    }
  }

  lemma PartKeepsNative(n: Native.Native, t: Tid, part: Part)
    requires Native.NativeInv(n) && PartCan(n, t, part)
    ensures Native.NativeInv(PartDo(n, t, part)) && ViewOf(PartDo(n, t, part)) == ViewOf(n)
  {
    if !part.Alone? {
      Native.SetCallKeepsNative(n, t, Native.CallIn(PartDo(n, t, part), t));
    }
  }

  lemma AboveKeepsJoint(j: Joint, t: Tid, a: Py.PyAction)
    requires JointInv(j) && JointCan(j, t, Above(a))
    ensures JointInv(JointDo(j, t, Above(a))) && Py.PyCan(j.p, t, a)
  {
    var p', part := Py.PyDo(j.p, t, a), PartOf(j.p, t, a);
    PromisesKept(j, t, a);
    PythonKept(j.p, t, a);
    PartKeepsNative(j.n, t, part);
    PythonMovesLock(j.p, t, a);
    PartKeepsLife(j.p.lock, p'.lock, j.n, t, part);
    PythonMovesReads(j, t, a);
    PartKeepsReads(j.p, p', j.n, t, part);
  }

  // ---------------------------------------------------------------------
  // Native steps keep the fit
  // ---------------------------------------------------------------------

  /** What a native call of another kind, or a read, may turn into. */
  lemma ReadsGoOn(n: Native.Native, t: Tid, b: Native.NativeAction, x: Tid, generation: nat)
    requires Native.NativeCan(n, t, b) && GoesOn(n, t, b) && IsReading(Native.CallIn(n, x), generation)
    requires n.lock.Some? ==> n.lock.value.tid != x
    ensures IsReading(Native.CallIn(Native.NativeDo(n, t, b), x), generation)
  {
  }

  lemma NativeKeepsReads(p: Python, n: Native.Native, t: Tid, b: Native.NativeAction, view: View)
    requires ReadMatch(p, n) && LifeMatch(p.lock, n) && Native.NativeCan(n, t, b) && GoesOn(n, t, b)
    ensures ReadMatch(p.(native := view), Native.NativeDo(n, t, b))
  {
    var p', n' := p.(native := view), Native.NativeDo(n, t, b);
    forall x {:trigger Native.CallIn(n', x)}
      ensures ReadFit(DispatchRead(p', x), IterRead(p', x), Native.CallIn(n', x))
    {
      assert ReadFit(DispatchRead(p, x), IterRead(p, x), Native.CallIn(n, x));
      assert SameReads(p, p', x);
      if DispatchRead(p, x).Some? {
        ReadsGoOn(n, t, b, x, DispatchRead(p, x).value);
      } else if IterRead(p, x).Some? {
        ReadsGoOn(n, t, b, x, IterRead(p, x).value);
      }
    }
  }

  lemma LifeKeepsLife(lock: Option<Py.PyHolder>, n: Native.Native, t: Tid, a: Native.LifeAction)
    requires Native.NativeInv(n) && LifeMatch(lock, n) && Native.LifeCan(n, t, a) && GoesOn(n, t, Native.Life(a))
    requires lock.Some? && IsStarting(lock.value.section) ==> !lock.value.section.entry.running
    ensures LifeMatch(lock, Native.LifeDo(n, t, a))
  {
    var n' := Native.LifeDo(n, t, a);
    var _ := Native.CallIn(n, t);
    assert forall x {:trigger Native.CallIn(n', x)} :: x != t ==> Native.CallIn(n', x) == Native.CallIn(n, x);
    StartEnds(n, t);
  }

  lemma StopReturnKeepsLife(lock: Option<Py.PyHolder>, n: Native.Native, t: Tid, core: Facade)
    requires Native.NativeInv(n) && LifeMatch(lock, n)
    requires Native.NativeCan(n, t, Native.CoreMove(StopReturns(t), core))
    ensures LifeMatch(lock, Native.CoreDo(n, StopReturns(t), core))
  {
    var n' := Native.CoreDo(n, StopReturns(t), core);
    var _ := Native.CallIn(n, t);
    assert forall x {:trigger Native.CallIn(n', x)} :: x != t ==> Native.CallIn(n', x) == Native.CallIn(n, x);
    StopEnds(n, t, core);
  }

  lemma CoreKeepsLife(lock: Option<Py.PyHolder>, n: Native.Native, l: Label, core: Facade)
    requires Native.NativeInv(n) && LifeMatch(lock, n) && Moves(n.core, l, core) && Native.Admits(n, l)
    requires !l.StopReturns?
    ensures LifeMatch(lock, Native.CoreDo(n, l, core))
  {
    var n', t := Native.CoreDo(n, l, core), Native.LabelThread(l);
    var _ := Native.CallIn(n, t);
    assert forall x {:trigger Native.CallIn(n', x)} :: x != t ==> Native.CallIn(n', x) == Native.CallIn(n, x);
    assert !l.Answers? ==> Native.CallIn(n', t) == Native.CallIn(n, t);
  }

  lemma ReadKeepsLife(lock: Option<Py.PyHolder>, n: Native.Native, t: Tid, a: Native.ReadAction)
    requires LifeMatch(lock, n) && Native.ReadCan(n, t, a) && GoesOn(n, t, Native.Read(a))
    ensures LifeMatch(lock, Native.ReadDo(n, t, a))
  {
    var n' := Native.ReadDo(n, t, a);
    var _ := Native.CallIn(n, t);
    assert forall x {:trigger Native.CallIn(n', x)} :: x != t ==> Native.CallIn(n', x) == Native.CallIn(n, x);
    assert ViewOf(n') == ViewOf(n) && n'.lock == n.lock;
  }

  lemma NativeKeepsLife(lock: Option<Py.PyHolder>, n: Native.Native, t: Tid, b: Native.NativeAction)
    requires Native.NativeInv(n) && LifeMatch(lock, n) && Native.NativeCan(n, t, b) && GoesOn(n, t, b)
    requires lock.Some? && IsStarting(lock.value.section) ==> !lock.value.section.entry.running
    ensures LifeMatch(lock, Native.NativeDo(n, t, b))
  {
    match b
    case Life(a) => LifeKeepsLife(lock, n, t, a);
    case CoreMove(l, core) =>
      if l.StopReturns? {
        StopReturnKeepsLife(lock, n, l.t, core);
      } else {
        CoreKeepsLife(lock, n, l, core);
      }
    case Read(a) => ReadKeepsLife(lock, n, t, a);
  }

  /** To Python a native step is nothing, or the native client evolving inside the
      call that the holder of `_lock` makes. */
  ghost predicate Projects(p: Python, p': Python) {
    p' == p || (p.lock.Some? && Py.StartCan(p, p.lock.value.tid, Py.NativeEvolves(p'.native))
                && p' == Py.StartDo(p, p.lock.value.tid, Py.NativeEvolves(p'.native)))
  }

  lemma BelowProjects(j: Joint, t: Tid, b: Native.NativeAction)
    requires JointInv(j) && JointCan(j, t, Below(b))
    ensures Projects(j.p, JointDo(j, t, Below(b)).p)
  {
    EveryNativeStepEvolves(j.n, t, b);
  }

  lemma BelowKeepsJoint(j: Joint, t: Tid, b: Native.NativeAction)
    requires JointInv(j) && JointCan(j, t, Below(b))
    ensures JointInv(JointDo(j, t, Below(b)))
  {
    var j' := JointDo(j, t, Below(b));
    BelowProjects(j, t, b);
    if j'.p != j.p {
      PythonKept(j.p, j.p.lock.value.tid, Py.Start(Py.NativeEvolves(j'.p.native)));
    }
    Native.NativeKept(j.n, t, b);
    NativeKeepsReads(j.p, j.n, t, b, ViewOf(j'.n));
    NativeKeepsLife(j.p.lock, j.n, t, b);
  }

  // ---------------------------------------------------------------------
  // Every item was taken from the queue
  // ---------------------------------------------------------------------

  predicate ResultIn(r: Py.Result, taken: seq<Item>) {
    r.Sample? ==> r.sample in taken
  }

  predicate PointIn(at: Py.DispatchPoint, taken: seq<Item>) {
    match at
    case Got(_, r) => ResultIn(r, taken)
    case Converted(x) => x in taken
    case Ready(x) => x in taken
    case _ => true
  }

  predicate CallItemIn(c: Py.PyCall, taken: seq<Item>) {
    c.Iterating? && c.at.IterGot? ==> ResultIn(c.at.result, taken)
  }

  /** Whatever Python holds, yields or passes on was taken from the queue. */
  ghost predicate ItemsIn(p: Python, taken: seq<Item>) {
    && (forall i {:trigger p.out[i]} :: 0 <= i < |p.out| ==> p.out[i].item in taken)
    && (forall t {:trigger p.dispatchers[t]} :: t in p.dispatchers ==> PointIn(p.dispatchers[t].at, taken))
    && (forall t {:trigger Py.CallOf(p, t)} :: CallItemIn(Py.CallOf(p, t), taken))
  }

  predicate NativeCallIn(c: Native.NativeCall, taken: seq<Item>) {
    c.HasRead? ==> ResultIn(c.result, taken)
  }

  ghost predicate ItemsInv(j: Joint) {
    && ItemsIn(j.p, j.n.log.taken)
    && (forall t {:trigger Native.CallIn(j.n, t)} :: NativeCallIn(Native.CallIn(j.n, t), j.n.log.taken))
  }

  lemma StartKeepsItems(p: Python, t: Tid, a: Py.StartAction, taken: seq<Item>)
    requires ItemsIn(p, taken) && Py.StartMay(p, t, a)
    ensures ItemsIn(Py.StartDo(p, t, a), taken)
  {
    var p' := Py.StartDo(p, t, a);
    assert forall x {:trigger Py.CallOf(p', x)} :: x != t ==> Py.CallOf(p', x) == Py.CallOf(p, x);
    var _ := Py.CallOf(p, t);
  }

  lemma StopKeepsItems(p: Python, t: Tid, a: Py.StopAction, taken: seq<Item>)
    requires ItemsIn(p, taken) && Py.StopMay(p, t, a)
    ensures ItemsIn(Py.StopDo(p, t, a), taken)
  {
    var p' := Py.StopDo(p, t, a);
    assert forall x {:trigger Py.CallOf(p', x)} :: x != t ==> Py.CallOf(p', x) == Py.CallOf(p, x);
    var _ := Py.CallOf(p, t);
  }

  lemma IterKeepsItems(p: Python, t: Tid, a: Py.IterAction, taken: seq<Item>)
    requires ItemsIn(p, taken) && Py.IterMay(p, t, a) && (a.IterReceives? ==> ResultIn(a.result, taken))
    ensures ItemsIn(Py.IterDo(p, t, a), taken)
  {
    var p' := Py.IterDo(p, t, a);
    assert forall x {:trigger Py.CallOf(p', x)} :: x != t ==> Py.CallOf(p', x) == Py.CallOf(p, x);
    var _ := Py.CallOf(p, t);
  }

  lemma DispatchKeepsItems(p: Python, t: Tid, a: Py.DispatchAction, taken: seq<Item>)
    requires ItemsIn(p, taken) && Py.DispatchMay(p, t, a) && (a.Receives? ==> ResultIn(a.result, taken))
    ensures ItemsIn(Py.DispatchDo(p, t, a), taken)
  {
    var p' := Py.DispatchDo(p, t, a);
    assert PointIn(p.dispatchers[t].at, taken);
    assert forall x :: Py.CallOf(p', x) == Py.CallOf(p, x);
    assert forall x {:trigger p'.dispatchers[x]} :: x in p'.dispatchers && x != t ==>
      x in p.dispatchers && p'.dispatchers[x] == p.dispatchers[x];
  }

  lemma AboveKeepsItems(j: Joint, t: Tid, a: Py.PyAction)
    requires ItemsInv(j) && JointCan(j, t, Above(a))
    ensures ItemsInv(JointDo(j, t, Above(a)))
  {
    var taken, part := j.n.log.taken, PartOf(j.p, t, a);
    var n' := PartDo(j.n, t, part);
    assert NativeCallIn(Native.CallIn(j.n, t), taken);
    assert n'.log == j.n.log;
    assert forall x {:trigger Native.CallIn(n', x)} :: x != t ==> Native.CallIn(n', x) == Native.CallIn(j.n, x);
    match a
    case Start(x) => StartKeepsItems(j.p, t, x, taken);
    case Stop(x) => StopKeepsItems(j.p, t, x, taken);
    case Iterate(x) => IterKeepsItems(j.p, t, x, taken);
    case DispatchStep(x) => DispatchKeepsItems(j.p, t, x, taken);
  }

  /** A native step adds to what was taken, and hands out only that. */
  lemma NativeTakes(n: Native.Native, t: Tid, b: Native.NativeAction)
    requires Native.NativeCan(n, t, b)
    ensures
      var n' := Native.NativeDo(n, t, b);
      && (n'.log.taken == n.log.taken
          || (|n'.log.taken| == |n.log.taken| + 1 && n'.log.taken[..|n.log.taken|] == n.log.taken))
      && (forall x {:trigger Native.CallIn(n', x)} ::
            Native.CallIn(n', x) == Native.CallIn(n, x) || NativeCallIn(Native.CallIn(n', x), n'.log.taken))
  {
  }

  lemma BelowKeepsItems(j: Joint, t: Tid, b: Native.NativeAction)
    requires ItemsInv(j) && JointCan(j, t, Below(b))
    ensures ItemsInv(JointDo(j, t, Below(b)))
  {
    var j' := JointDo(j, t, Below(b));
    var taken, taken' := j.n.log.taken, j'.n.log.taken;
    NativeTakes(j.n, t, b);
    assert forall x :: x in taken ==> x in taken' by {
      forall x | x in taken ensures x in taken' {
        assert taken == taken'[..|taken|];
      }
    }
    assert forall x :: Py.CallOf(j'.p, x) == Py.CallOf(j.p, x);
    forall x {:trigger Native.CallIn(j'.n, x)} ensures NativeCallIn(Native.CallIn(j'.n, x), taken') {
      assert NativeCallIn(Native.CallIn(j.n, x), taken);
    }
  }

  lemma JointStarts(capacity: nat)
    requires 0 < capacity
    ensures JointInv(Joint(Py.PYTHON_INITIAL, Native.Initial(capacity)))
    ensures ItemsInv(Joint(Py.PYTHON_INITIAL, Native.Initial(capacity)))
  {
    PythonStarts();
    Native.NativeStarts(capacity);
  }
}
