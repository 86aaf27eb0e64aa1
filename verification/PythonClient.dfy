/**
 The Python `Client`: run tokens, delivery modes and the callback dispatcher.

 Any number of threads call `start`, `stop` and iterate over `samples()`; each
 callback run has a dispatcher thread of its own.  One step is one stretch under
 `_lock`, one read of an attribute outside it, or one call into the native client;
 native `start` and `stop` run while `_lock` is held, native `read` without it.
 The native client is seen through `NativeView`.
 */
module PythonClient {
  import opened ClientData
  import opened NativeView
  import NativeClient
  import Queues = SampleQueues

  type Item = NativeClient.Item
  type Result = Queues.ReadResult<Item>

  // ---------------------------------------------------------------------
  // State
  // ---------------------------------------------------------------------

  datatype Mode = NoMode | IteratorMode | CallbackMode

  /** `_CallbackActivation`. */
  datatype Gate = Shut | Active | Cancelled

  /** `_CallbackRun`; `worker` is its dispatcher, `thread` the attribute that is
      cleared once the dispatcher has been joined. */
  datatype Run = Run(
    token: nat, callback: Option<nat>, gate: Gate, completed: bool, worker: Tid, thread: Option<Tid>,
    error: bool, failure: bool)

  /** `_running`, `_mode`, `_run_token`, `_callback_run`. */
  datatype Fields = Fields(running: bool, mode: Mode, token: nat, current: Option<nat>)

  /** Where `_dispatch_callback` stands. */
  datatype DispatchPoint =
    | AtGate
    | AtLoop
    | AtRead
    | InRead(generation: nat)
    | Got(generation: nat, result: Result)
    | Converted(item: Item)
    | Ready(item: Item)
    | InCallback
    | CallbackRaised
    | ReadRaised
    | FoundClosed
    | InStop
    | AtEnd
    | Ended

  datatype Dispatch = Dispatch(run: nat, at: DispatchPoint)

  /** Where `_iterate_samples` stands.  An iterator counts as a thread of its own,
      whichever thread advances it. */
  datatype IterPoint =
    | IterCheck
    | IterRead
    | IterInRead(generation: nat)
    | IterGot(generation: nat, result: Result)
    | IterClosed
    | IterDone

  /** Joining a dispatcher: the attribute is read twice, then cleared under the
      lock if it is still the one read first. */
  datatype JoinStage =
    | ReadFirst
    | ReadAgain(joined: Option<Tid>)
    | JoinOn(joined: Option<Tid>, target: Tid)
    | Clearing(joined: Option<Tid>)

  /** What follows a join: another round of `start`, or the end of a `stop` that
      saw the given token. */
  datatype After = Restart(mode: Mode, callback: nat) | EndStop(token: nat)

  datatype PyCall =
    | Idle
    | StartCall(mode: Mode, callback: nat)
    | StopCall
    | Inside                                  // holds _lock inside a native call
    | Joining(run: nat, stage: JoinStage, after: After)
    | FailedJoin(run: nat)                    // start has failed and joins its dispatcher
    | StopReturned(token: nat)                // to a thread that is no dispatcher
    | Iterating(token: nat, at: IterPoint)

  /** The native calls made under `_lock`; each start section keeps the native view
      it began with. */
  datatype PySection =
    | StartingIterator(entry: View)
    | UndoingIterator
    | StartingCallback(run: nat, entry: View)
    | UndoingCallback(run: nat)
    | Stopping(join: Option<nat>)             // stop()
    | StoppingIterator                        // a fault ends the iteration
    | StoppingDispatcher                      // the dispatcher ends its run

  /** The holder of `_lock`, with the run of `_callback_run` and the token as they
      were when it was taken. */
  datatype PyHolder = PyHolder(tid: Tid, section: PySection, before: Option<Run>, token: nat)

  /** A sample yielded under a token or passed to the callback of its run. */
  datatype Out = Out(token: nat, item: Item)

  datatype Python = Python(
    native: View,
    lock: Option<PyHolder>,
    fields: Fields,
    runs: seq<Run>,
    dispatchers: map<Tid, Dispatch>,
    calls: map<Tid, PyCall>,
    begun: seq<nat>,                         // the native run each token begun
    out: seq<Out>)

  const PYTHON_INITIAL :=
    Python(View(0, [], false), None, Fields(false, NoMode, 0, None), [], map[], map[], [], [])

  function CallOf(p: Python, t: Tid): PyCall {
    if t in p.calls then p.calls[t] else Idle
  }

  function SetCall(p: Python, t: Tid, c: PyCall): Python {
    p.(calls := p.calls[t := c])
  }

  predicate HoldsLock(p: Python, t: Tid) {
    p.lock.Some? && p.lock.value.tid == t
  }

  /** `_callback_run_is_current_locked`. */
  predicate RunIsCurrent(p: Python, r: nat) {
    && p.fields.running && p.fields.mode.CallbackMode? && p.fields.current == Some(r)
    && r < |p.runs| && p.runs[r].token == p.fields.token
  }

  /** `_iterator_is_current_locked`. */
  predicate TokenIsCurrent(p: Python, token: nat) {
    p.fields.running && p.fields.mode.IteratorMode? && p.fields.token == token
  }

  function CurrentRun(p: Python): Option<Run> {
    if p.fields.current.Some? && p.fields.current.value < |p.runs| then Some(p.runs[p.fields.current.value]) else None
  }

  function SetRun(p: Python, r: nat, run: Run): Python {
    if r < |p.runs| then p.(runs := p.runs[r := run]) else p
  }

  /** The dispatcher of the run has not ended. */
  predicate DispatcherLives(p: Python, r: nat) {
    && r < |p.runs| && p.runs[r].worker in p.dispatchers && p.dispatchers[p.runs[r].worker].run == r
    && !p.dispatchers[p.runs[r].worker].at.Ended?
  }

  // ---------------------------------------------------------------------
  // start
  // ---------------------------------------------------------------------

  datatype StartAction =
    | CallsStart(mode: Mode, callback: nat)
    | StartRefuses                         // raises or returns without doing anything
    | StartMustJoin
    | StartsIterator
    | StartsCallback(w: Tid)
    | StartCannotDispatch                  // no dispatcher thread could be made
    | NativeEvolves(v: View)               // inside a native start or stop
    | IteratorStarted
    | IteratorStartFails                   // the native start raises, or anything after it does
    | CallbackStarted
    | CallbackStartFails(slips: bool)      // likewise; the dispatcher may have slipped past its gate
    | RollbackEnds

  predicate MayCall(p: Python, t: Tid) {
    && (CallOf(p, t).Idle? || CallOf(p, t).StopReturned?)
    && (t in p.dispatchers ==> p.dispatchers[t].at.InCallback?)
  }

  /** The caller is the dispatcher of the current run. */
  predicate IsDispatcher(p: Python, t: Tid) {
    CurrentRun(p).Some? && CurrentRun(p).value.thread == Some(t)
  }

  predicate MustJoin(p: Python) {
    CurrentRun(p).Some? && CurrentRun(p).value.thread.Some?
  }

  /** `start` is past its checks and goes on in its own section. */
  predicate StartGoesOn(p: Python, t: Tid, mode: Mode) {
    && CallOf(p, t).StartCall? && CallOf(p, t).mode == mode && p.lock.None?
    && !IsDispatcher(p, t) && !p.fields.running && !MustJoin(p)
  }

  /** The step is the next one of its call. */
  predicate StartMay(p: Python, t: Tid, a: StartAction) {
    match a
    case CallsStart(mode, _) => MayCall(p, t) && !mode.NoMode?
    case StartRefuses => CallOf(p, t).StartCall? && p.lock.None? && (IsDispatcher(p, t) || p.fields.running)
    case StartMustJoin =>
      CallOf(p, t).StartCall? && p.lock.None? && !IsDispatcher(p, t) && !p.fields.running && MustJoin(p)
    case StartsIterator => StartGoesOn(p, t, IteratorMode)
    case StartsCallback(w) =>
      StartGoesOn(p, t, CallbackMode) && w !in p.dispatchers && w !in p.calls && w != t
    case StartCannotDispatch => StartGoesOn(p, t, CallbackMode)
    case NativeEvolves(_) => HoldsLock(p, t)
    case IteratorStarted => HoldsLock(p, t) && p.lock.value.section.StartingIterator?
    case IteratorStartFails => HoldsLock(p, t) && p.lock.value.section.StartingIterator?
    case CallbackStarted => HoldsLock(p, t) && p.lock.value.section.StartingCallback?
    case CallbackStartFails(_) => HoldsLock(p, t) && p.lock.value.section.StartingCallback?
    case RollbackEnds =>
      HoldsLock(p, t) && (p.lock.value.section.UndoingIterator? || p.lock.value.section.UndoingCallback?)
  }

  /** What the native client promises about the step: a start that returned opened
      one run, a stop that returned left it not running. */
  ghost predicate StartPromise(p: Python, t: Tid, a: StartAction)
    requires StartMay(p, t, a)
  {
    match a
    case NativeEvolves(v) => Evolves(p.native, v)
    case IteratorStarted => Started(p.lock.value.section.entry, p.native)
    case CallbackStarted => Started(p.lock.value.section.entry, p.native)
    case RollbackEnds => !p.native.running
    case _ => true
  }

  ghost predicate StartCan(p: Python, t: Tid, a: StartAction) {
    StartMay(p, t, a) && StartPromise(p, t, a)
  }

  function Lock(p: Python, t: Tid, section: PySection): Python {
    p.(lock := Some(PyHolder(t, section, CurrentRun(p), p.fields.token)))
  }

  function Enter(p: Python, section: PySection): Python
    requires p.lock.Some?
  {
    p.(lock := Some(p.lock.value.(section := section)))
  }

  /** A dispatcher that saw its gate open in the instant before it was cancelled is
      in its loop; it cannot do anything there before the lock is free. */
  function Slip(p: Python, w: Tid, slips: bool): Python {
    if slips && w in p.dispatchers && p.dispatchers[w].at.AtGate?
    then p.(dispatchers := p.dispatchers[w := p.dispatchers[w].(at := AtLoop)]) else p
  }

  function StartDo(p: Python, t: Tid, a: StartAction): Python
    requires StartMay(p, t, a)
  {
    var c := CallOf(p, t);
    match a
    case CallsStart(mode, callback) => SetCall(p, t, StartCall(mode, callback))
    case StartRefuses => SetCall(p, t, Idle)
    case StartMustJoin => SetCall(p, t, Joining(p.fields.current.value, ReadFirst, Restart(c.mode, c.callback)))
    case StartsIterator => SetCall(Lock(p, t, StartingIterator(p.native)), t, Inside)
    case StartsCallback(w) =>
      var r := |p.runs|;
      var run := Run(p.fields.token + 1, Some(c.callback), Shut, false, w, Some(w), false, false);
      var locked := Lock(p, t, StartingCallback(r, p.native));
      SetCall(locked.(runs := p.runs + [run], dispatchers := p.dispatchers[w := Dispatch(r, AtGate)]), t, Inside)
    case StartCannotDispatch => SetCall(p, t, Idle)
    case NativeEvolves(v) => p.(native := v)
    case IteratorStarted =>
      SetCall(p.(lock := None, fields := Fields(true, IteratorMode, p.fields.token + 1, None),
                 begun := p.begun + [|p.native.born|]), t, Idle)
    case IteratorStartFails => Enter(p.(fields := p.fields.(running := false, mode := NoMode)), UndoingIterator)
    case CallbackStarted =>
      var r := p.lock.value.section.run;
      var p' := p.(lock := None, fields := Fields(true, CallbackMode, p.fields.token + 1, Some(r)),
                   begun := p.begun + [|p.native.born|]);
      SetCall(if r < |p.runs| then SetRun(p', r, p.runs[r].(gate := Active)) else p', t, Idle)
    case CallbackStartFails(slips) =>
      var r := p.lock.value.section.run;
      var p' := Enter(p.(fields := p.fields.(running := false, mode := NoMode)), UndoingCallback(r));
      if r < |p.runs| then Slip(SetRun(p', r, p.runs[r].(gate := Cancelled, callback := None)), p.runs[r].worker, slips)
      else p'
    case RollbackEnds =>
      SetCall(p.(lock := None), t,
              if p.lock.value.section.UndoingCallback? then FailedJoin(p.lock.value.section.run) else Idle)
  }

  // ---------------------------------------------------------------------
  // stop, and joining a dispatcher
  // ---------------------------------------------------------------------

  datatype StopAction =
    | CallsStop
    | StopLocks
    | StopEnds                  // the native stop has returned
    | ReadsThread
    | ReadsThreadAgain
    | Joins
    | Clears
    | JoinsFailed

  predicate StopMay(p: Python, t: Tid, a: StopAction) {
    var c := CallOf(p, t);
    match a
    case CallsStop => MayCall(p, t)
    case StopLocks => c.StopCall? && p.lock.None?
    case StopEnds => HoldsLock(p, t) && p.lock.value.section.Stopping?
    case ReadsThread => c.Joining? && c.stage.ReadFirst? && c.run < |p.runs|
    case ReadsThreadAgain => c.Joining? && c.stage.ReadAgain? && c.run < |p.runs|
    case Joins =>
      c.Joining? && c.stage.JoinOn? && c.stage.target in p.dispatchers && p.dispatchers[c.stage.target].at.Ended?
    case Clears => c.Joining? && c.stage.Clearing? && c.run < |p.runs| && p.lock.None?
    case JoinsFailed => c.FailedJoin? && c.run < |p.runs| && !DispatcherLives(p, c.run)
  }

  predicate StopCan(p: Python, t: Tid, a: StopAction) {
    StopMay(p, t, a) && (a.StopEnds? ==> !p.native.running)
  }

  /** The run `stop` has to join, if any. */
  function ToJoin(p: Python, t: Tid): Option<nat> {
    if MustJoin(p) && !IsDispatcher(p, t) then p.fields.current else None
  }

  /** Where `stop` goes once it has released the lock. */
  function AfterStop(p: Python, t: Tid, join: Option<nat>): PyCall {
    if join.Some? then Joining(join.value, ReadFirst, EndStop(p.fields.token))
    else if IsDispatcher(p, t) then Idle
    else StopReturned(p.fields.token)
  }

  /** `_stop_locked`: its native stop runs in the given section. */
  function StopLocked(p: Python, t: Tid, section: PySection): Python {
    Lock(p.(fields := p.fields.(running := false)), t, section)
  }

  function StopDo(p: Python, t: Tid, a: StopAction): Python
    requires StopMay(p, t, a)
  {
    var c := CallOf(p, t);
    match a
    case CallsStop => SetCall(p, t, StopCall)
    case StopLocks =>
      if p.fields.running then SetCall(StopLocked(p, t, Stopping(ToJoin(p, t))), t, Inside)
      else SetCall(p, t, AfterStop(p, t, ToJoin(p, t)))
    case StopEnds =>
      SetCall(p.(lock := None, fields := p.fields.(mode := NoMode)), t, AfterStop(p, t, p.lock.value.section.join))
    case ReadsThread => SetCall(p, t, c.(stage := ReadAgain(p.runs[c.run].thread)))
    case ReadsThreadAgain =>
      var thread := p.runs[c.run].thread;
      SetCall(p, t, c.(stage := if thread.None? || thread == Some(t) then Clearing(c.stage.joined)
                                else JoinOn(c.stage.joined, thread.value)))
    case Joins => SetCall(p, t, c.(stage := Clearing(c.stage.joined)))
    case Clears =>
      var clear := p.fields.current == Some(c.run) && p.runs[c.run].thread == c.stage.joined;
      var p' := if clear then SetRun(p, c.run, p.runs[c.run].(thread := None)) else p;
      SetCall(p', t,
              if c.after.Restart? then StartCall(c.after.mode, c.after.callback) else StopReturned(c.after.token))
    case JoinsFailed => SetCall(p, t, Idle)
  }

  // ---------------------------------------------------------------------
  // Iterators
  // ---------------------------------------------------------------------

  datatype IterAction =
    | CallsSamples
    | IterChecks
    | IterReads
    | IterReceives(result: Result)
    | IterRaises                 // in the read, in converting the sample, or in reading the fault
    | IterDecides
    | IterFinds(faulted: bool)
    | IterStopEnds

  /** A native read that captured `generation` may end so. */
  predicate ReadFits(v: View, generation: nat, result: Result) {
    result.Sample? ==> 0 < result.sample.run <= |v.born| && v.born[result.sample.run - 1] == generation
  }

  predicate IterMay(p: Python, t: Tid, a: IterAction) {
    var c := CallOf(p, t);
    match a
    case CallsSamples => MayCall(p, t) && p.lock.None? && !p.fields.mode.CallbackMode?
    case IterChecks => c.Iterating? && c.at.IterCheck? && p.lock.None?
    case IterReads => c.Iterating? && c.at.IterRead?
    case IterReceives(_) => c.Iterating? && c.at.IterInRead?
    case IterRaises =>
      c.Iterating? && (c.at.IterInRead? || c.at.IterGot? || (c.at.IterClosed? && p.lock.None?))
    case IterDecides => c.Iterating? && c.at.IterGot? && p.lock.None?
    case IterFinds(_) => c.Iterating? && c.at.IterClosed? && p.lock.None?
    case IterStopEnds => HoldsLock(p, t) && p.lock.value.section.StoppingIterator?
  }

  predicate IterCan(p: Python, t: Tid, a: IterAction) {
    && IterMay(p, t, a)
    && (a.IterReceives? ==> ReadFits(p.native, CallOf(p, t).at.generation, a.result))
    && (a.IterStopEnds? ==> !p.native.running)
  }

  function IterDo(p: Python, t: Tid, a: IterAction): Python
    requires IterMay(p, t, a)
  {
    var c := CallOf(p, t);
    match a
    case CallsSamples =>
      SetCall(p.(fields := p.fields.(mode := if p.fields.mode.NoMode? then IteratorMode else p.fields.mode)), t,
              Iterating(p.fields.token, IterCheck))
    case IterChecks => SetCall(p, t, c.(at := if TokenIsCurrent(p, c.token) then IterRead else IterDone))
    case IterReads => SetCall(p, t, c.(at := IterInRead(p.native.generation)))
    case IterReceives(result) => SetCall(p, t, c.(at := IterGot(c.at.generation, result)))
    case IterRaises => SetCall(p, t, c.(at := IterDone))
    case IterDecides =>
      if !TokenIsCurrent(p, c.token) then SetCall(p, t, c.(at := IterDone))
      else (match c.at.result
        case Sample(x) => SetCall(p.(out := p.out + [Out(c.token, x)]), t, c.(at := IterCheck))
        case Timeout => SetCall(p, t, c.(at := IterDone))
        case Closed => SetCall(p, t, c.(at := IterClosed)))
    case IterFinds(faulted) =>
      if TokenIsCurrent(p, c.token) && faulted then SetCall(StopLocked(p, t, StoppingIterator), t, Inside)
      else SetCall(p, t, c.(at := IterDone))
    case IterStopEnds => SetCall(p.(lock := None, fields := p.fields.(mode := NoMode)), t, Idle)
  }

  // ---------------------------------------------------------------------
  // The dispatcher
  // ---------------------------------------------------------------------

  datatype DispatchAction =
    | PassesGate
    | ChecksCurrent
    | Reads
    | Receives(result: Result)
    | Raises                     // the read, converting the sample, or reading the fault
    | Decides
    | ChecksAgain
    | Calls
    | CallbackReturns
    | CallbackRaises
    | RecordsError
    | FinishesClosed(faulted: bool)
    | DispatchStopEnds
    | Finishes

  predicate DispatchMay(p: Python, t: Tid, a: DispatchAction) {
    t in p.dispatchers && p.dispatchers[t].run < |p.runs| &&
    var d := p.dispatchers[t];
    match a
    case PassesGate => d.at.AtGate? && !p.runs[d.run].gate.Shut?
    case ChecksCurrent => d.at.AtLoop? && p.lock.None?
    case Reads => d.at.AtRead?
    case Receives(_) => d.at.InRead?
    case Raises => d.at.InRead? || d.at.Converted? || (d.at.FoundClosed? && p.lock.None?)
    case Decides => d.at.Got? && p.lock.None?
    case ChecksAgain => d.at.Converted? && p.lock.None?
    case Calls => d.at.Ready?
    case CallbackReturns => d.at.InCallback? && (CallOf(p, t).Idle? || CallOf(p, t).StopReturned?)
    case CallbackRaises => d.at.InCallback? && (CallOf(p, t).Idle? || CallOf(p, t).StopReturned?)
    case RecordsError => (d.at.CallbackRaised? || d.at.ReadRaised?) && p.lock.None?
    case FinishesClosed(_) => d.at.FoundClosed? && p.lock.None?
    case DispatchStopEnds => HoldsLock(p, t) && p.lock.value.section.StoppingDispatcher? && d.at.InStop?
    case Finishes => d.at.AtEnd?
  }

  predicate DispatchCan(p: Python, t: Tid, a: DispatchAction) {
    && DispatchMay(p, t, a)
    && (a.Receives? ==> ReadFits(p.native, p.dispatchers[t].at.generation, a.result))
    && (a.DispatchStopEnds? ==> !p.native.running)
  }

  /** Where the dispatcher goes. */
  function DispatchNext(p: Python, d: Dispatch, a: DispatchAction): DispatchPoint
    requires d.run < |p.runs|
    requires a.Receives? ==> d.at.InRead?
    requires a.Decides? ==> d.at.Got?
    requires a.ChecksAgain? ==> d.at.Converted?
  {
    match a
    case PassesGate => if p.runs[d.run].gate.Active? then AtLoop else AtEnd
    case ChecksCurrent => if RunIsCurrent(p, d.run) then AtRead else AtEnd
    case Reads => InRead(p.native.generation)
    case Receives(result) => Got(d.at.generation, result)
    case Raises => ReadRaised
    case Decides =>
      if !RunIsCurrent(p, d.run) then AtEnd
      else (match d.at.result
        case Sample(x) => Converted(x)
        case Timeout => AtLoop
        case Closed => FoundClosed)
    case ChecksAgain => if RunIsCurrent(p, d.run) then Ready(d.at.item) else AtEnd
    case Calls => if p.runs[d.run].callback.Some? then InCallback else AtEnd
    case CallbackReturns => AtLoop
    case CallbackRaises => CallbackRaised
    case RecordsError => if RunIsCurrent(p, d.run) then InStop else AtEnd
    case FinishesClosed(_) => if RunIsCurrent(p, d.run) then InStop else AtEnd
    case DispatchStopEnds => AtEnd
    case Finishes => Ended
  }

  /** What the dispatcher records in its run. */
  function RunAfter(p: Python, r: nat, a: DispatchAction): Run
    requires r < |p.runs|
  {
    var run := p.runs[r];
    match a
    case RecordsError => if run.error || run.failure then run else run.(error := true)
    case FinishesClosed(faulted) => if RunIsCurrent(p, r) && faulted then run.(failure := true) else run
    case Finishes => run.(callback := None, completed := true)
    case _ => run
  }

  function DispatchDo(p: Python, t: Tid, a: DispatchAction): Python
    requires DispatchMay(p, t, a)
  {
    var d := p.dispatchers[t];
    var next := DispatchNext(p, d, a);
    var p' := p.(dispatchers := p.dispatchers[t := d.(at := next)], runs := p.runs[d.run := RunAfter(p, d.run, a)]);
    if next.InStop? then StopLocked(p', t, StoppingDispatcher)
    else if a.DispatchStopEnds? then p'.(lock := None, fields := p.fields.(mode := NoMode))
    else if a.Calls? && next.InCallback? then p'.(out := p.out + [Out(p.runs[d.run].token, d.at.item)])
    else p'
  }

  // ---------------------------------------------------------------------
  // The machine
  // ---------------------------------------------------------------------

  datatype PyAction =
    | Start(start: StartAction)
    | Stop(stop: StopAction)
    | Iterate(iter: IterAction)
    | DispatchStep(step: DispatchAction)

  predicate PyMay(p: Python, t: Tid, a: PyAction) {
    match a
    case Start(x) => StartMay(p, t, x)
    case Stop(x) => StopMay(p, t, x)
    case Iterate(x) => IterMay(p, t, x)
    case DispatchStep(x) => DispatchMay(p, t, x)
  }

  /** The step is next in its call, and the native client keeps its promise. */
  ghost predicate PyCan(p: Python, t: Tid, a: PyAction) {
    match a
    case Start(x) => StartCan(p, t, x)
    case Stop(x) => StopCan(p, t, x)
    case Iterate(x) => IterCan(p, t, x)
    case DispatchStep(x) => DispatchCan(p, t, x)
  }

  function PyDo(p: Python, t: Tid, a: PyAction): Python
    requires PyMay(p, t, a)
  {
    match a
    case Start(x) => StartDo(p, t, x)
    case Stop(x) => StopDo(p, t, x)
    case Iterate(x) => IterDo(p, t, x)
    case DispatchStep(x) => DispatchDo(p, t, x)
  }
}
