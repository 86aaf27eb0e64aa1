/**
 What every step of the Python client keeps: which dispatcher may be alive, which
 native run a token stands for, and what iterators and callbacks are given.
 */
module PythonRuns {
  import opened ClientData
  import opened NativeView
  import opened PythonClient

  // ---------------------------------------------------------------------
  // The invariant
  // ---------------------------------------------------------------------

  /** While the client runs, its token stands for the native run started last. */
  ghost predicate TokensInv(p: Python) {
    && ViewOk(p.native) && |p.begun| == p.fields.token
    && (forall i :: 0 <= i < |p.begun| ==> 0 < p.begun[i] <= |p.native.born|)
    && (forall i, j :: 0 <= i < j < |p.begun| ==> p.begun[i] < p.begun[j])
    && (p.fields.running ==>
          && p.native.running && OnLastRun(p.native) && p.fields.token > 0
          && p.begun[p.fields.token - 1] == |p.native.born| && !p.fields.mode.NoMode?)
  }

  predicate IsStart(section: PySection) {
    section.StartingIterator? || section.StartingCallback? || section.UndoingIterator? || section.UndoingCallback?
  }

  ghost predicate EntryOk(p: Python, entry: View) {
    !entry.running && forall i :: 0 <= i < |p.begun| ==> p.begun[i] <= |entry.born|
  }

  predicate FreshRun(p: Python, r: nat) {
    && r < |p.runs| && p.runs[r].gate.Shut? && p.runs[r].token == p.fields.token + 1 && p.fields.current != Some(r)
    && p.runs[r].thread == Some(p.runs[r].worker)
  }

  /** `_lock` is held only around native calls, and only while not running. */
  ghost predicate LockInv(p: Python) {
    if p.lock.None? then !p.fields.running ==> !p.native.running
    else
      var section := p.lock.value.section;
      && !p.fields.running
      && (IsStart(section) ==>
            p.lock.value.before == CurrentRun(p) && p.lock.value.token == p.fields.token && !MustJoin(p))
      && (section.StartingIterator? ==> EntryOk(p, section.entry))
      && (section.StartingCallback? ==> EntryOk(p, section.entry) && FreshRun(p, section.run))
      && (section.UndoingCallback? ==> section.run < |p.runs|)
      && (section.UndoingIterator? || section.UndoingCallback? ==> p.fields.mode.NoMode?)
      && (section.Stopping? ==> section.join == ToJoin(p, p.lock.value.tid))
  }

  predicate IsActive(p: Python, r: nat) {
    r < |p.runs| && p.runs[r].gate.Active?
  }

  /** Points of a dispatcher whose run was never activated for good: at its gate,
      just past it before it asks whether its run is current, or at its end. */
  predicate Outside(at: DispatchPoint) {
    at.AtGate? || at.AtLoop? || at.AtEnd? || at.Ended?
  }

  predicate Reported(at: DispatchPoint) {
    at.InStop? || at.AtEnd? || at.Ended?
  }

  ghost predicate RunOk(p: Python, r: nat)
    requires r < |p.runs|
  {
    var run := p.runs[r];
    && run.worker in p.dispatchers && p.dispatchers[run.worker].run == r
    && (run.thread == None || run.thread == Some(run.worker))
    && (run.gate.Active? ==> 0 < run.token <= p.fields.token)
    && (!run.gate.Active? ==> Outside(p.dispatchers[run.worker].at))
    && (run.gate.Shut? ==> !p.dispatchers[run.worker].at.AtLoop?)
    && (run.gate.Active? && !p.dispatchers[run.worker].at.Ended? ==>
          p.fields.current == Some(r) && run.thread == Some(run.worker))
    && !(run.error && run.failure)
    && (!Reported(p.dispatchers[run.worker].at) ==> !run.error && !run.failure)
  }

  ghost predicate RunsInv(p: Python) {
    && (forall r {:trigger p.runs[r]} :: 0 <= r < |p.runs| ==> RunOk(p, r))
    && (forall t {:trigger p.dispatchers[t]} :: t in p.dispatchers ==>
          p.dispatchers[t].run < |p.runs| && p.runs[p.dispatchers[t].run].worker == t)
    && (p.fields.current.Some? ==> IsActive(p, p.fields.current.value))
  }

  /** The item was pushed by the native run that the token's start opened. */
  predicate Belongs(p: Python, token: nat, x: Item) {
    0 < token <= |p.begun| && x.run == p.begun[token - 1]
  }

  predicate DispatchOk(p: Python, d: Dispatch) {
    match d.at
    case InRead(g) => RunIsCurrent(p, d.run) ==> g == p.native.generation
    case Got(g, result) => ReadFits(p.native, g, result) && (RunIsCurrent(p, d.run) ==> g == p.native.generation)
    case Converted(x) => d.run < |p.runs| && Belongs(p, p.runs[d.run].token, x)
    case Ready(x) => d.run < |p.runs| && Belongs(p, p.runs[d.run].token, x)
    case _ => true
  }

  ghost predicate DispatchInv(p: Python) {
    forall t {:trigger p.dispatchers[t]} :: t in p.dispatchers ==> DispatchOk(p, p.dispatchers[t])
  }

  ghost predicate OutInv(p: Python) {
    forall i {:trigger p.out[i]} :: 0 <= i < |p.out| ==> Belongs(p, p.out[i].token, p.out[i].item)
  }

  /** No dispatcher activated under the token or an earlier one is alive, the given
      run's apart. */
  ghost predicate QuietBut(p: Python, token: nat, run: int) {
    token <= p.fields.token &&
    forall r {:trigger p.runs[r]} :: 0 <= r < |p.runs| && r != run && IsActive(p, r) && p.runs[r].token <= token ==>
      !DispatcherLives(p, r)
  }

  ghost predicate JoinOk(p: Python, t: Tid, run: nat, stage: JoinStage, after: After) {
    && IsActive(p, run) && p.runs[run].worker != t
    && (stage.JoinOn? ==> stage.target == p.runs[run].worker)
    && (stage.Clearing? ==> !DispatcherLives(p, run))
    && (after.EndStop? ==> QuietBut(p, after.token, run))
  }

  predicate IterOk(p: Python, token: nat, at: IterPoint) {
    && token <= p.fields.token
    && (at.IterInRead? || at.IterGot? ==> TokenIsCurrent(p, token) ==> at.generation == p.native.generation)
    && (at.IterGot? ==> ReadFits(p.native, at.generation, at.result))
  }

  ghost predicate CallOk(p: Python, t: Tid, c: PyCall) {
    match c
    case Joining(run, stage, after) => JoinOk(p, t, run, stage, after)
    case StopReturned(token) => QuietBut(p, token, -1)
    case Iterating(token, at) => IterOk(p, token, at)
    case _ => true
  }

  ghost predicate CallsInv(p: Python) {
    forall t {:trigger CallOf(p, t)} :: CallOk(p, t, CallOf(p, t))
  }

  ghost predicate ClientInv(p: Python) {
    TokensInv(p) && LockInv(p) && RunsInv(p)
  }

  ghost predicate PythonInv(p: Python) {
    ClientInv(p) && OutInv(p) && DispatchInv(p) && CallsInv(p)
  }

  lemma RunIs(p: Python, r: nat)
    requires RunsInv(p) && r < |p.runs|
    ensures RunOk(p, r)
  {
    var _ := p.runs[r];
  }

  // ---------------------------------------------------------------------
  // What other threads leave standing
  // ---------------------------------------------------------------------

  ghost predicate RunsOutlive(p: Python, p': Python) {
    && |p.runs| <= |p'.runs|
    && (forall r {:trigger p'.runs[r]} :: 0 <= r < |p.runs| ==>
          && p'.runs[r].token == p.runs[r].token && p'.runs[r].worker == p.runs[r].worker
          && (p.runs[r].gate.Active? ==> p'.runs[r].gate.Active?)
          && (p'.runs[r].gate.Active? && !p.runs[r].gate.Active? ==> p.runs[r].token > p.fields.token)
          && (DispatcherLives(p', r) ==> DispatcherLives(p, r)))
    && (forall r {:trigger p'.runs[r]} :: |p.runs| <= r < |p'.runs| ==> !p'.runs[r].gate.Active?)
  }

  /** No token, and no run past its gate, becomes current again. */
  ghost predicate NothingReturns(p: Python, p': Python) {
    && (forall k {:trigger TokenIsCurrent(p', k)} :: 0 <= k <= p.fields.token && TokenIsCurrent(p', k) ==>
          TokenIsCurrent(p, k) && p'.native.generation == p.native.generation)
    && (forall r {:trigger RunIsCurrent(p', r)} :: IsActive(p, r) && RunIsCurrent(p', r) ==>
          RunIsCurrent(p, r) && p'.native.generation == p.native.generation)
  }

  ghost predicate Grows(xs: seq<nat>, ys: seq<nat>) {
    |xs| <= |ys| && forall i {:trigger ys[i]} :: 0 <= i < |xs| ==> ys[i] == xs[i]
  }

  ghost predicate Outlives(p: Python, p': Python) {
    && p.fields.token <= p'.fields.token
    && Grows(p.begun, p'.begun) && Grows(p.native.born, p'.native.born)
    && RunsOutlive(p, p') && NothingReturns(p, p')
  }

  lemma CallOutlives(p: Python, p': Python, t: Tid, c: PyCall)
    requires CallOk(p, t, c) && Outlives(p, p')
    ensures CallOk(p', t, c)
  {
  }

  lemma DispatchOutlives(p: Python, p': Python, d: Dispatch)
    requires DispatchOk(p, d) && Outlives(p, p') && d.run < |p.runs|
    requires d.at.InRead? || d.at.Got? ==> IsActive(p, d.run)
    ensures DispatchOk(p', d)
  {
  }

  lemma BelongsOutlives(p: Python, p': Python, token: nat, x: Item)
    requires Belongs(p, token, x) && Outlives(p, p')
    ensures Belongs(p', token, x)
  {
  }

  /** A step that moves no call but `t`'s and no dispatcher but `d`. */
  lemma OthersOutlive(p: Python, p': Python, t: Tid, d: Tid)
    requires PythonInv(p) && ClientInv(p') && Outlives(p, p')
    requires forall x {:trigger CallOf(p', x)} :: x != t ==> CallOf(p', x) == CallOf(p, x)
    requires CallOk(p', t, CallOf(p', t))
    requires forall x {:trigger p'.dispatchers[x]} :: x in p'.dispatchers && x != d ==>
               x in p.dispatchers && p'.dispatchers[x] == p.dispatchers[x]
    requires d in p'.dispatchers ==> DispatchOk(p', p'.dispatchers[d])
    requires p'.out == p.out
             || (|p'.out| == |p.out| + 1 && p'.out[..|p.out|] == p.out
                 && Belongs(p', p'.out[|p.out|].token, p'.out[|p.out|].item))
    ensures PythonInv(p')
  {
    forall x {:trigger CallOf(p', x)} | x != t ensures CallOk(p', x, CallOf(p', x)) {
      CallOutlives(p, p', x, CallOf(p, x));
    }
    forall x {:trigger p'.dispatchers[x]} | x in p'.dispatchers && x != d ensures DispatchOk(p', p'.dispatchers[x]) {
      DispatcherOutlives(p, p', x);
    }
    forall i {:trigger p'.out[i]} | 0 <= i < |p.out| ensures Belongs(p', p'.out[i].token, p'.out[i].item) {
      assert p'.out[i] == p.out[i];
      BelongsOutlives(p, p', p.out[i].token, p.out[i].item);
    }
  }

  lemma DispatcherOutlives(p: Python, p': Python, d: Tid)
    requires PythonInv(p) && Outlives(p, p') && d in p.dispatchers
    ensures DispatchOk(p', p.dispatchers[d])
  {
    assert p.dispatchers[d].run < |p.runs|;
    RunIs(p, p.dispatchers[d].run);
    DispatchOutlives(p, p', p.dispatchers[d]);
  }

  /** A step that moves no call but `t`'s, yields nothing and moves no dispatcher. */
  lemma CallerOutlives(p: Python, p': Python, t: Tid)
    requires PythonInv(p) && ClientInv(p') && Outlives(p, p')
    requires forall x {:trigger CallOf(p', x)} :: x != t ==> CallOf(p', x) == CallOf(p, x)
    requires CallOk(p', t, CallOf(p', t)) && p'.dispatchers == p.dispatchers && p'.out == p.out
    ensures PythonInv(p')
  {
    if t in p.dispatchers {
      DispatcherOutlives(p, p', t);
    }
    OthersOutlive(p, p', t, t);
  }

  /** Neither runs nor dispatchers nor the current run change. */
  lemma SameRuns(p: Python, p': Python)
    requires RunsInv(p) && p'.runs == p.runs && p'.dispatchers == p.dispatchers
    requires p'.fields.current == p.fields.current && p'.fields.token == p.fields.token
    ensures RunsInv(p') && RunsOutlive(p, p')
  {
    assert p.fields.current.Some? ==> IsActive(p, p.fields.current.value);
    forall r | 0 <= r < |p'.runs| ensures RunOk(p', r) {
      RunIs(p, r);
    }
  }

  /** One run changes, with its dispatcher if need be. */
  lemma OneRunChanges(p: Python, p': Python, r: nat)
    requires RunsInv(p) && r < |p.runs| && |p'.runs| == |p.runs|
    requires forall i {:trigger p'.runs[i]} :: 0 <= i < |p.runs| && i != r ==> p'.runs[i] == p.runs[i]
    requires p'.dispatchers.Keys == p.dispatchers.Keys
    requires forall t {:trigger p'.dispatchers[t]} :: t in p.dispatchers && t != p.runs[r].worker ==>
               p'.dispatchers[t] == p.dispatchers[t]
    requires p'.fields.current == p.fields.current && p'.fields.token == p.fields.token
    requires p'.runs[r].worker == p.runs[r].worker && p'.runs[r].token == p.runs[r].token
    requires p'.runs[r].gate.Active? == p.runs[r].gate.Active?
    requires RunOk(p', r) && (DispatcherLives(p', r) ==> DispatcherLives(p, r))
    ensures RunsInv(p') && RunsOutlive(p, p')
  {
    assert p.fields.current.Some? ==> IsActive(p, p.fields.current.value);
    RunIs(p, r);
    forall i | 0 <= i < |p'.runs| ensures RunOk(p', i) && (DispatcherLives(p', i) ==> DispatcherLives(p, i)) {
      RunIs(p, i);
    }
    forall t {:trigger p'.dispatchers[t]} | t in p'.dispatchers
      ensures p'.dispatchers[t].run < |p'.runs| && p'.runs[p'.dispatchers[t].run].worker == t
    {
      assert t in p.dispatchers.Keys;
      assert p.runs[p.dispatchers[t].run].worker == t;
    }
  }

  // ---------------------------------------------------------------------
  // Moving a call only
  // ---------------------------------------------------------------------

  lemma CallMoves(p: Python, t: Tid, c: PyCall)
    requires PythonInv(p) && CallOk(p, t, c)
    ensures PythonInv(SetCall(p, t, c))
  {
    var p' := SetCall(p, t, c);
    SameRuns(p, p');
    CallOutlives(p, p', t, c);
    CallerOutlives(p, p', t);
  }

  // ---------------------------------------------------------------------
  // Start
  // ---------------------------------------------------------------------

  /** Steps of `start` that only move the caller. */
  predicate Moving(a: StartAction) {
    a.CallsStart? || a.StartRefuses? || a.StartMustJoin? || a.StartCannotDispatch?
  }

  lemma MovingKeeps(p: Python, t: Tid, a: StartAction)
    requires PythonInv(p) && StartCan(p, t, a) && Moving(a)
    ensures PythonInv(StartDo(p, t, a))
  {
    if a.StartMustJoin? {
      var r := p.fields.current.value;
      assert IsActive(p, r);
      RunIs(p, r);
    }
    CallMoves(p, t, CallOf(StartDo(p, t, a), t));
  }

  lemma NativeKeeps(p: Python, t: Tid, v: View)
    requires PythonInv(p) && StartCan(p, t, NativeEvolves(v))
    ensures PythonInv(StartDo(p, t, NativeEvolves(v)))
  {
    var p' := StartDo(p, t, NativeEvolves(v));
    SameRuns(p, p');
    assert forall x :: CallOf(p', x) == CallOf(p, x);
    assert forall i :: 0 <= i < |p.native.born| ==> v.born[..|p.native.born|][i] == v.born[i];
    assert Outlives(p, p');
    CallOutlives(p, p', t, CallOf(p, t));
    CallerOutlives(p, p', t);
  }

  lemma IteratorLockKeeps(p: Python, t: Tid)
    requires PythonInv(p) && StartCan(p, t, StartsIterator)
    ensures PythonInv(StartDo(p, t, StartsIterator))
  {
    var p' := StartDo(p, t, StartsIterator);
    SameRuns(p, p');
    CallerOutlives(p, p', t);
  }

  /** With no thread to join, no activated dispatcher is alive. */
  lemma NothingToJoin(p: Python, r: nat)
    requires RunsInv(p) && !MustJoin(p) && IsActive(p, r)
    ensures p.runs[r].worker in p.dispatchers && p.dispatchers[p.runs[r].worker].at.Ended?
  {
    RunIs(p, r);
  }

  /** A run is added, its dispatcher waiting at the gate. */
  lemma RunAdded(p: Python, p': Python, run: Run)
    requires RunsInv(p) && run.worker !in p.dispatchers && run.gate.Shut? && run.thread == Some(run.worker)
    requires !run.error && !run.failure
    requires p'.runs == p.runs + [run] && p'.dispatchers == p.dispatchers[run.worker := Dispatch(|p.runs|, AtGate)]
    requires p'.fields == p.fields
    ensures RunsInv(p') && RunsOutlive(p, p')
  {
    assert p.fields.current.Some? ==> IsActive(p, p.fields.current.value);
    forall r | 0 <= r < |p.runs| ensures RunOk(p', r) && (DispatcherLives(p', r) ==> DispatcherLives(p, r)) {
      RunIs(p, r);
    }
    assert RunOk(p', |p.runs|);
  }

  lemma CallbackLockKeeps(p: Python, t: Tid, w: Tid)
    requires PythonInv(p) && StartCan(p, t, StartsCallback(w))
    ensures PythonInv(StartDo(p, t, StartsCallback(w)))
  {
    var p' := StartDo(p, t, StartsCallback(w));
    assert p.fields.current.Some? ==> IsActive(p, p.fields.current.value);
    assert CurrentRun(p') == CurrentRun(p);
    RunAdded(p, p', p'.runs[|p.runs|]);
    OthersOutlive(p, p', t, w);
  }

  lemma IteratorStartedKeeps(p: Python, t: Tid)
    requires PythonInv(p) && StartCan(p, t, IteratorStarted)
    ensures PythonInv(StartDo(p, t, IteratorStarted))
  {
    var p' := StartDo(p, t, IteratorStarted);
    assert |p'.runs| == |p.runs| && p'.dispatchers == p.dispatchers;
    forall r | 0 <= r < |p.runs| ensures RunOk(p', r) && (DispatcherLives(p', r) ==> DispatcherLives(p, r)) {
      RunIs(p, r);
      if IsActive(p, r) {
        NothingToJoin(p, r);
      }
    }
    assert RunsOutlive(p, p');
    CallerOutlives(p, p', t);
  }

  lemma StartFailsKeeps(p: Python, t: Tid)
    requires PythonInv(p) && StartCan(p, t, IteratorStartFails)
    ensures PythonInv(StartDo(p, t, IteratorStartFails))
  {
    var p' := StartDo(p, t, IteratorStartFails);
    SameRuns(p, p');
    assert forall x :: CallOf(p', x) == CallOf(p, x);
    assert Outlives(p, p');
    CallOutlives(p, p', t, CallOf(p, t));
    CallerOutlives(p, p', t);
  }

  lemma CallbackStartedKeeps(p: Python, t: Tid)
    requires PythonInv(p) && StartCan(p, t, CallbackStarted)
    ensures PythonInv(StartDo(p, t, CallbackStarted))
  {
    var p' := StartDo(p, t, CallbackStarted);
    assert |p'.runs| == |p.runs| && p'.dispatchers == p.dispatchers;
    forall r | 0 <= r < |p.runs| ensures RunOk(p', r) && (DispatcherLives(p', r) ==> DispatcherLives(p, r)) {
      RunIs(p, r);
      if IsActive(p, r) {
        NothingToJoin(p, r);
      }
    }
    assert RunsOutlive(p, p');
    CallerOutlives(p, p', t);
  }

  /** The run whose start fails is cancelled, and its dispatcher may slip past the
      gate. */
  lemma FailCancelsRun(p: Python, t: Tid, slips: bool)
    requires PythonInv(p) && StartCan(p, t, CallbackStartFails(slips))
    ensures
      var p', r := StartDo(p, t, CallbackStartFails(slips)), p.lock.value.section.run;
      && r < |p'.runs| == |p.runs| && RunsInv(p') && RunsOutlive(p, p')
      && p'.dispatchers.Keys == p.dispatchers.Keys
      && (forall x {:trigger p'.dispatchers[x]} :: x in p'.dispatchers && x != p.runs[r].worker ==>
            p'.dispatchers[x] == p.dispatchers[x])
      && p.runs[r].worker in p'.dispatchers && Outside(p'.dispatchers[p.runs[r].worker].at)
  {
    var p', r := StartDo(p, t, CallbackStartFails(slips)), p.lock.value.section.run;
    RunIs(p, r);
    assert p'.dispatchers.Keys == p.dispatchers.Keys;
    OneRunChanges(p, p', r);
  }

  lemma CallbackStartFailsKeeps(p: Python, t: Tid, slips: bool)
    requires PythonInv(p) && StartCan(p, t, CallbackStartFails(slips))
    ensures PythonInv(StartDo(p, t, CallbackStartFails(slips)))
  {
    var p' := StartDo(p, t, CallbackStartFails(slips));
    FailCancelsRun(p, t, slips);
    assert forall x :: CallOf(p', x) == CallOf(p, x);
    assert Outlives(p, p');
    CallOutlives(p, p', t, CallOf(p, t));
    OthersOutlive(p, p', t, p.runs[p.lock.value.section.run].worker);
  }

  lemma RollbackKeeps(p: Python, t: Tid)
    requires PythonInv(p) && StartCan(p, t, RollbackEnds)
    ensures PythonInv(StartDo(p, t, RollbackEnds))
  {
    var p' := StartDo(p, t, RollbackEnds);
    SameRuns(p, p');
    CallerOutlives(p, p', t);
  }

  lemma StartKeepsPython(p: Python, t: Tid, a: StartAction)
    requires PythonInv(p) && StartCan(p, t, a)
    ensures PythonInv(StartDo(p, t, a))
  {
    match a
    case NativeEvolves(v) => NativeKeeps(p, t, v);
    case StartsIterator => IteratorLockKeeps(p, t);
    case StartsCallback(w) => CallbackLockKeeps(p, t, w);
    case IteratorStarted => IteratorStartedKeeps(p, t);
    case IteratorStartFails => StartFailsKeeps(p, t);
    case CallbackStarted => CallbackStartedKeeps(p, t);
    case CallbackStartFails(slips) => CallbackStartFailsKeeps(p, t, slips);
    case RollbackEnds => RollbackKeeps(p, t);
    case _ => MovingKeeps(p, t, a);
  }

  // ---------------------------------------------------------------------
  // Stop
  // ---------------------------------------------------------------------

  /** After its section, `stop` has one run to join or none alive. */
  lemma StopKnows(p: Python, t: Tid)
    requires TokensInv(p) && RunsInv(p)
    ensures CallOk(p, t, AfterStop(p, t, ToJoin(p, t)))
  {
    var c := AfterStop(p, t, ToJoin(p, t));
    if c.Joining? {
      assert IsActive(p, c.run);
      RunIs(p, c.run);
      forall r {:trigger p.runs[r]} | 0 <= r < |p.runs| && r != c.run && IsActive(p, r) ensures !DispatcherLives(p, r) {
        RunIs(p, r);
      }
    } else if c.StopReturned? {
      forall r {:trigger p.runs[r]} | 0 <= r < |p.runs| && IsActive(p, r) ensures !DispatcherLives(p, r) {
        NothingToJoin(p, r);
      }
    }
  }

  /** Steps of `stop` and of a join that only move the caller. */
  predicate StopMoving(p: Python, a: StopAction) {
    || a.CallsStop? || a.ReadsThread? || a.ReadsThreadAgain? || a.Joins? || a.JoinsFailed?
    || (a.StopLocks? && !p.fields.running)
  }

  lemma StopMovingKeeps(p: Python, t: Tid, a: StopAction)
    requires PythonInv(p) && StopCan(p, t, a) && StopMoving(p, a)
    ensures PythonInv(StopDo(p, t, a))
  {
    var c := CallOf(p, t);
    assert CallOk(p, t, c);
    if a.StopLocks? {
      StopKnows(p, t);
    } else if a.ReadsThreadAgain? || a.Joins? {
      RunIs(p, c.run);
    }
    CallMoves(p, t, CallOf(StopDo(p, t, a), t));
  }

  lemma StopLocksKeeps(p: Python, t: Tid)
    requires PythonInv(p) && StopCan(p, t, StopLocks) && p.fields.running
    ensures PythonInv(StopDo(p, t, StopLocks))
  {
    var p' := StopDo(p, t, StopLocks);
    SameRuns(p, p');
    CallerOutlives(p, p', t);
  }

  lemma StopEndsKeeps(p: Python, t: Tid)
    requires PythonInv(p) && StopCan(p, t, StopEnds)
    ensures PythonInv(StopDo(p, t, StopEnds))
  {
    var p' := StopDo(p, t, StopEnds);
    SameRuns(p, p');
    StopKnows(p, t);
    assert Outlives(p, p');
    CallOutlives(p, p', t, CallOf(p', t));
    CallerOutlives(p, p', t);
  }

  lemma ClearsKeeps(p: Python, t: Tid)
    requires PythonInv(p) && StopCan(p, t, Clears)
    ensures PythonInv(StopDo(p, t, Clears))
  {
    var p', c := StopDo(p, t, Clears), CallOf(p, t);
    assert CallOk(p, t, c);
    RunIs(p, c.run);
    OneRunChanges(p, p', c.run);
    assert Outlives(p, p');
    CallOutlives(p, p', t, c);
    CallerOutlives(p, p', t);
  }

  lemma StopKeepsPython(p: Python, t: Tid, a: StopAction)
    requires PythonInv(p) && StopCan(p, t, a)
    ensures PythonInv(StopDo(p, t, a))
  {
    if StopMoving(p, a) {
      StopMovingKeeps(p, t, a);
    } else if a.StopLocks? {
      StopLocksKeeps(p, t);
    } else if a.StopEnds? {
      StopEndsKeeps(p, t);
    } else {
      ClearsKeeps(p, t);
    }
  }

  // ---------------------------------------------------------------------
  // Iterators
  // ---------------------------------------------------------------------

  /** A read under a token that is still current is of the token's run. */
  lemma SampleBelongs(p: Python, generation: nat, result: Result)
    requires TokensInv(p) && p.fields.running && generation == p.native.generation
    requires result.Sample? && ReadFits(p.native, generation, result)
    ensures Belongs(p, p.fields.token, result.sample)
  {
  }

  predicate IterMoving(p: Python, t: Tid, a: IterAction)
    requires IterCan(p, t, a)
  {
    var c := CallOf(p, t);
    || a.IterChecks? || a.IterReads? || a.IterReceives? || a.IterRaises?
    || (a.IterDecides? && !(TokenIsCurrent(p, c.token) && c.at.result.Sample?))
    || (a.IterFinds? && !(TokenIsCurrent(p, c.token) && a.faulted))
  }

  lemma IterMovingKeeps(p: Python, t: Tid, a: IterAction)
    requires PythonInv(p) && IterCan(p, t, a) && IterMoving(p, t, a)
    ensures PythonInv(IterDo(p, t, a))
  {
    assert CallOk(p, t, CallOf(p, t));
    CallMoves(p, t, CallOf(IterDo(p, t, a), t));
  }

  lemma YieldKeeps(p: Python, t: Tid)
    requires PythonInv(p) && IterCan(p, t, IterDecides) && !IterMoving(p, t, IterDecides)
    ensures PythonInv(IterDo(p, t, IterDecides))
  {
    var p', c := IterDo(p, t, IterDecides), CallOf(p, t);
    assert CallOk(p, t, c);
    SampleBelongs(p, c.at.generation, c.at.result);
    SameRuns(p, p');
    assert Outlives(p, p');
    if t in p.dispatchers {
      DispatcherOutlives(p, p', t);
    }
    OthersOutlive(p, p', t, t);
  }

  lemma SamplesKeeps(p: Python, t: Tid)
    requires PythonInv(p) && IterCan(p, t, CallsSamples)
    ensures PythonInv(IterDo(p, t, CallsSamples))
  {
    var p' := IterDo(p, t, CallsSamples);
    SameRuns(p, p');
    CallerOutlives(p, p', t);
  }

  lemma IterLockKeeps(p: Python, t: Tid, a: IterAction)
    requires PythonInv(p) && IterCan(p, t, a) && !IterMoving(p, t, a) && (a.IterFinds? || a.IterStopEnds?)
    ensures PythonInv(IterDo(p, t, a))
  {
    var p' := IterDo(p, t, a);
    SameRuns(p, p');
    CallerOutlives(p, p', t);
  }

  lemma IterKeepsPython(p: Python, t: Tid, a: IterAction)
    requires PythonInv(p) && IterCan(p, t, a)
    ensures PythonInv(IterDo(p, t, a))
  {
    if IterMoving(p, t, a) {
      IterMovingKeeps(p, t, a);
    } else if a.IterDecides? {
      YieldKeeps(p, t);
    } else if a.CallsSamples? {
      SamplesKeeps(p, t);
    } else {
      IterLockKeeps(p, t, a);
    }
  }

  // ---------------------------------------------------------------------
  // The dispatcher
  // ---------------------------------------------------------------------

  lemma DispatchKeepsRun(p: Python, t: Tid, a: DispatchAction)
    requires PythonInv(p) && DispatchCan(p, t, a)
    ensures
      var r, p' := p.dispatchers[t].run, DispatchDo(p, t, a);
      && r < |p'.runs| == |p.runs| && p.runs[r].worker == t
      && p'.runs == p.runs[r := RunAfter(p, r, a)] && p'.dispatchers == p.dispatchers[t := p'.dispatchers[t]]
      && p'.fields.current == p.fields.current && p'.fields.token == p.fields.token
      && RunOk(p', r) && (DispatcherLives(p', r) ==> DispatcherLives(p, r))
  {
    assert p.fields.current.Some? ==> IsActive(p, p.fields.current.value);
    RunIs(p, p.dispatchers[t].run);
  }

  lemma DispatchKeepsRuns(p: Python, t: Tid, a: DispatchAction)
    requires PythonInv(p) && DispatchCan(p, t, a)
    ensures RunsInv(DispatchDo(p, t, a)) && RunsOutlive(p, DispatchDo(p, t, a))
  {
    var r, p' := p.dispatchers[t].run, DispatchDo(p, t, a);
    DispatchKeepsRun(p, t, a);
    assert p'.dispatchers.Keys == p.dispatchers.Keys;
    OneRunChanges(p, p', r);
  }

  /** While a start holds the lock, the current run's dispatcher has ended. */
  lemma StartSeesEnd(p: Python, t: Tid, a: DispatchAction)
    requires PythonInv(p) && DispatchCan(p, t, a) && p.lock.Some? && IsStart(p.lock.value.section)
    ensures p.fields.current != Some(p.dispatchers[t].run)
  {
    var r := p.dispatchers[t].run;
    if p.fields.current == Some(r) {
      assert IsActive(p, p.fields.current.value);
      NothingToJoin(p, r);
    }
  }

  /** A dispatcher takes the lock to stop, gives it back, or leaves it alone. */
  predicate LockMove(p: Python, p': Python, t: Tid) {
    || (p'.lock == p.lock && p'.fields == p.fields)
    || (p.lock.None? && HoldsLock(p', t) && p'.lock.value.section.StoppingDispatcher?
        && p'.fields == p.fields.(running := false))
    || (p.lock.Some? && p.lock.value.section.StoppingDispatcher? && !p.native.running && p'.lock.None?
        && p'.fields == p.fields.(mode := NoMode))
  }

  lemma DispatchLocks(p: Python, t: Tid, a: DispatchAction)
    requires DispatchCan(p, t, a)
    ensures
      var p' := DispatchDo(p, t, a);
      LockMove(p, p', t) && p'.native == p.native && p'.begun == p.begun
  {
  }

  lemma RunAfterKeeps(p: Python, r: nat, a: DispatchAction)
    requires r < |p.runs|
    ensures
      var run, run' := p.runs[r], RunAfter(p, r, a);
      run'.thread == run.thread && run'.token == run.token && run'.gate == run.gate && run'.worker == run.worker
  {
  }

  lemma LockMoveKeeps(p: Python, p': Python, t: Tid, r: nat, run: Run)
    requires TokensInv(p) && LockInv(p) && r < |p.runs| && p'.runs == p.runs[r := run]
    requires run.thread == p.runs[r].thread && run.token == p.runs[r].token && run.gate == p.runs[r].gate
    requires run.worker == p.runs[r].worker
    requires LockMove(p, p', t) && p'.native == p.native && p'.begun == p.begun
    requires p.lock.Some? && IsStart(p.lock.value.section) ==> p.fields.current != Some(r)
    ensures TokensInv(p') && LockInv(p')
    ensures NothingReturns(p, p')
  {
  }

  lemma DispatchKeepsLock(p: Python, t: Tid, a: DispatchAction)
    requires PythonInv(p) && DispatchCan(p, t, a)
    ensures TokensInv(DispatchDo(p, t, a)) && LockInv(DispatchDo(p, t, a))
    ensures NothingReturns(p, DispatchDo(p, t, a))
  {
    var r := p.dispatchers[t].run;
    if p.lock.Some? && IsStart(p.lock.value.section) {
      StartSeesEnd(p, t, a);
    }
    DispatchLocks(p, t, a);
    RunAfterKeeps(p, r, a);
    DispatchKeepsRun(p, t, a);
    LockMoveKeeps(p, DispatchDo(p, t, a), t, r, RunAfter(p, r, a));
  }

  lemma DispatchKeepsPoint(p: Python, t: Tid, a: DispatchAction)
    requires PythonInv(p) && DispatchCan(p, t, a)
    ensures DispatchOk(DispatchDo(p, t, a), DispatchDo(p, t, a).dispatchers[t])
  {
    var d := p.dispatchers[t];
    assert DispatchOk(p, d);
    if a.Decides? && RunIsCurrent(p, d.run) && d.at.result.Sample? {
      SampleBelongs(p, d.at.generation, d.at.result);
    }
  }

  /** What a callback is called with belongs to its run. */
  lemma DispatchKeepsOut(p: Python, t: Tid, a: DispatchAction)
    requires PythonInv(p) && DispatchCan(p, t, a)
    ensures
      var p' := DispatchDo(p, t, a);
      && p'.begun == p.begun && p'.native == p.native && p'.calls == p.calls
      && (p'.out == p.out
          || (|p'.out| == |p.out| + 1 && p'.out[..|p.out|] == p.out
              && Belongs(p', p'.out[|p.out|].token, p'.out[|p.out|].item)))
  {
    assert DispatchOk(p, p.dispatchers[t]);
  }

  lemma DispatchKeepsPython(p: Python, t: Tid, a: DispatchAction)
    requires PythonInv(p) && DispatchCan(p, t, a)
    ensures PythonInv(DispatchDo(p, t, a))
  {
    var p' := DispatchDo(p, t, a);
    DispatchKeepsRun(p, t, a);
    DispatchKeepsRuns(p, t, a);
    DispatchKeepsLock(p, t, a);
    DispatchKeepsPoint(p, t, a);
    DispatchKeepsOut(p, t, a);
    assert Outlives(p, p');
    assert forall x :: CallOf(p', x) == CallOf(p, x);
    CallOutlives(p, p', t, CallOf(p, t));
    OthersOutlive(p, p', t, t);
  }

  // ---------------------------------------------------------------------
  // Every reachable state
  // ---------------------------------------------------------------------

  lemma PythonStarts()
    ensures PythonInv(PYTHON_INITIAL)
  {
  }

  lemma PythonKept(p: Python, t: Tid, a: PyAction)
    requires PythonInv(p) && PyCan(p, t, a)
    ensures PythonInv(PyDo(p, t, a))
  {
    match a
    case Start(x) => StartKeepsPython(p, t, x);
    case Stop(x) => StopKeepsPython(p, t, x);
    case Iterate(x) => IterKeepsPython(p, t, x);
    case DispatchStep(x) => DispatchKeepsPython(p, t, x);
  }

  datatype PyMove = PyMove(t: Tid, a: PyAction)

  ghost predicate PyLeads(p: Python, m: PyMove, p': Python) {
    PyCan(p, m.t, m.a) && p' == PyDo(p, m.t, m.a)
  }

  ghost predicate PythonReaches(moves: seq<PyMove>, p: Python) {
    if moves == [] then p == PYTHON_INITIAL
    else
      var m := moves[|moves| - 1];
      exists q :: PythonReaches(moves[..|moves| - 1], q) && PyLeads(q, m, p)
  }

  lemma {:induction false} EveryPythonState(moves: seq<PyMove>, p: Python)
    requires PythonReaches(moves, p)
    ensures PythonInv(p)
  {
    if moves == [] {
      PythonStarts();
    } else {
      var m := moves[|moves| - 1];
      var q :| PythonReaches(moves[..|moves| - 1], q) && PyLeads(q, m, p);
      EveryPythonState(moves[..|moves| - 1], q);
      PythonKept(q, m.t, m.a);
    }
  }

  lemma {:induction false} OneMoreMove(moves: seq<PyMove>, p: Python, t: Tid, a: PyAction)
    requires PythonReaches(moves, p) && PyCan(p, t, a)
    ensures PythonReaches(moves + [PyMove(t, a)], PyDo(p, t, a))
  {
    var longer := moves + [PyMove(t, a)];
    assert longer[..|longer| - 1] == moves && longer[|longer| - 1] == PyMove(t, a);
    assert PythonReaches(longer[..|longer| - 1], p) && PyLeads(p, longer[|longer| - 1], PyDo(p, t, a));
  }

  /** Whatever is yielded under a token, or passed to the callback of its run, was
      pushed by the native run that the token's start opened; and no two tokens
      share a native run. */
  lemma RunIsolation(moves: seq<PyMove>, p: Python, i: nat, j: nat)
    requires PythonReaches(moves, p) && i < |p.out| && j < |p.out|
    ensures
      var a, b := p.out[i], p.out[j];
      && 0 < a.token <= |p.begun| && a.item.run == p.begun[a.token - 1]
      && (a.token != b.token ==> a.item.run != b.item.run)
  {
    EveryPythonState(moves, p);
    assert Belongs(p, p.out[i].token, p.out[i].item);
    assert Belongs(p, p.out[j].token, p.out[j].item);
  }

  /** At most one activated dispatcher is alive, and it is the one that
      `_callback_run` holds. */
  lemma OneDispatcher(moves: seq<PyMove>, p: Python, q: nat, r: nat)
    requires PythonReaches(moves, p)
    requires IsActive(p, q) && DispatcherLives(p, q) && IsActive(p, r) && DispatcherLives(p, r)
    ensures q == r && p.fields.current == Some(r) && p.runs[r].thread == Some(p.runs[r].worker)
  {
    EveryPythonState(moves, p);
    RunIs(p, q);
    RunIs(p, r);
  }

  /** Callbacks never overlap: only the dispatcher of the activated run that
      `_callback_run` holds is ever inside one. */
  lemma CallbacksNeverOverlap(moves: seq<PyMove>, p: Python, t: Tid, u: Tid)
    requires PythonReaches(moves, p) && t in p.dispatchers && u in p.dispatchers
    requires p.dispatchers[t].at.InCallback? && p.dispatchers[u].at.InCallback?
    ensures t == u && IsActive(p, p.dispatchers[t].run) && p.fields.current == Some(p.dispatchers[t].run)
  {
    EveryPythonState(moves, p);
    RunIs(p, p.dispatchers[t].run);
    RunIs(p, p.dispatchers[u].run);
  }

  /** Once `stop` has returned to a thread that is no dispatcher, no dispatcher
      activated before is alive, and none of them ever is again. */
  lemma StopSilences(moves: seq<PyMove>, p: Python, t: Tid, r: nat)
    requires PythonReaches(moves, p) && CallOf(p, t).StopReturned? && IsActive(p, r)
    requires p.runs[r].token <= CallOf(p, t).token
    ensures !DispatcherLives(p, r)
  {
    EveryPythonState(moves, p);
    assert CallOk(p, t, CallOf(p, t));
    var _ := p.runs[r];
  }

  /** A run reports a callback error or a sensor failure, never both. */
  lemma OneReport(moves: seq<PyMove>, p: Python, r: nat)
    requires PythonReaches(moves, p) && r < |p.runs|
    ensures !(p.runs[r].error && p.runs[r].failure)
  {
    EveryPythonState(moves, p);
    RunIs(p, r);
  }

  /** A failed start leaves the run token, `_callback_run` and everything its run
      had recorded as they were when the start took the lock. */
  lemma FailedStartKeepsRun(moves: seq<PyMove>, p: Python, t: Tid)
    requires PythonReaches(moves, p) && StartCan(p, t, RollbackEnds)
    ensures
      var p' := StartDo(p, t, RollbackEnds);
      && p'.fields.token == p.lock.value.token && CurrentRun(p') == p.lock.value.before
      && !p'.fields.running && p'.fields.mode.NoMode? && !p'.native.running
  {
    EveryPythonState(moves, p);
  }
}
