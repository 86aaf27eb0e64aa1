/**
 Why iterators and dispatchers end, and what a run then reports.

 An observer notes the reason when an iteration or a dispatch comes to its end.  In
 every run, whatever has ended has a reason, a run reports a callback error or a sensor
 failure exactly when that was the reason, and a dispatcher ends only with its run.
 */
module PythonEnds {
  import opened ClientData
  import opened NativeView
  import opened PythonClient
  import opened PythonRuns
  import opened PythonDelivery
  import opened PythonReaders

  datatype Reason =
    | NeverActivated       // start failed, the gate was cancelled
    | Superseded           // the token or the run was found not to be current
    | TimedOut             // the read of an iterator
    | RaisedError          // a read, a conversion or the callback raised
    | FoundFault           // the queue was closed and the client faulted
    | FoundEnd             // the queue was closed without a fault

  type Ends = map<Hand, Reason>

  function WhenClosed(current: bool, faulted: bool): Reason {
    if !current then Superseded else if faulted then FoundFault else FoundEnd
  }

  /** The reason for which the step ends its reader, if it does. */
  function EndOf(p: Python, t: Tid, a: PyAction): Option<Reason>
    requires PyMay(p, t, a)
  {
    match a
    case Iterate(x) =>
      var current := CallOf(p, t).Iterating? && TokenIsCurrent(p, CallOf(p, t).token);
      (match x
       case IterChecks => if current then None else Some(Superseded)
       case IterRaises => Some(RaisedError)
       case IterDecides =>
         if !current then Some(Superseded) else if CallOf(p, t).at.result.Timeout? then Some(TimedOut) else None
       case IterFinds(faulted) => Some(WhenClosed(current, faulted))
       case _ => None)
    case DispatchStep(x) =>
      var r := p.dispatchers[t].run;
      var current := RunIsCurrent(p, r);
      (match x
       case PassesGate => if p.runs[r].gate.Active? then None else Some(NeverActivated)
       case ChecksCurrent => if current then None else Some(Superseded)
       case Decides => if current then None else Some(Superseded)
       case ChecksAgain => if current then None else Some(Superseded)
       case Raises => Some(RaisedError)
       case CallbackRaises => Some(RaisedError)
       case FinishesClosed(faulted) => Some(WhenClosed(current, faulted))
       case _ => None)
    case _ => None
  }

  function Noted(p: Python, e: Ends, t: Tid, a: PyAction): Ends
    requires PyMay(p, t, a)
  {
    if EndOf(p, t, a).Some? then e[HandOf(t, a) := EndOf(p, t, a).value] else e
  }

  // ---------------------------------------------------------------------
  // What is noted stands
  // ---------------------------------------------------------------------

  predicate Ending(at: DispatchPoint) {
    at.CallbackRaised? || at.ReadRaised? || Reported(at)
  }

  /** A dispatcher has a reason exactly when it is ending; its run then reports it, and is
      not current any more. */
  predicate DispatchEndOk(p: Python, e: Ends, t: Tid) {
    && (DispatchHand(t) in e <==> t in p.dispatchers && Ending(p.dispatchers[t].at))
    && (t in p.dispatchers && p.dispatchers[t].run < |p.runs| && DispatchHand(t) in e ==>
          var run, why := p.runs[p.dispatchers[t].run], e[DispatchHand(t)];
          if Reported(p.dispatchers[t].at)
          then
            && (run.error <==> why.RaisedError?) && (run.failure <==> why.FoundFault?)
            && !RunIsCurrent(p, p.dispatchers[t].run)
          else why.RaisedError?)
  }

  /** An iterator that is done has a reason, and one superseded has a token that is not current. */
  predicate IterEndOk(p: Python, e: Ends, t: Tid) {
    CallOf(p, t).Iterating? && CallOf(p, t).at.IterDone? ==>
      && IterHand(t) in e && !e[IterHand(t)].NeverActivated? && !e[IterHand(t)].FoundFault?
      && (e[IterHand(t)].Superseded? ==> !TokenIsCurrent(p, CallOf(p, t).token))
  }

  ghost predicate EndsInv(p: Python, e: Ends) {
    && (forall t :: DispatchEndOk(p, e, t)) && (forall t :: IterEndOk(p, e, t))
  }

  /** A run whose dispatcher has passed its gate and is not current never is again. */
  lemma RunNeverCurrentAgain(p: Python, t: Tid, a: PyAction, r: nat)
    requires ClientInv(p) && CallbacksThere(p) && PyCan(p, t, a) && r < |p.runs|
    requires !p.dispatchers[p.runs[r].worker].at.AtGate? && RunIsCurrent(PyDo(p, t, a), r)
    ensures RunIsCurrent(p, r)
  {
    RunIs(p, r);
    assert HasCallback(p, r);
    RunningMoves(p, t, a);
    EveryStepMovesOneRun(p, t, a);
    var _ := PyDo(p, t, a).runs[r];
  }

  /** The dispatcher and the reports of its run are untouched; or it is not ending. */
  predicate Untouched(p: Python, p': Python, u: Tid) {
    && (u in p.dispatchers ==> u in p'.dispatchers)
    && (u in p'.dispatchers && Ending(p'.dispatchers[u].at) ==> u in p.dispatchers)
    && (u in p.dispatchers && p.dispatchers[u].run < |p.runs| && u in p'.dispatchers ==>
          var d := p.dispatchers[u];
          && d.run < |p'.runs|
          && p'.runs[d.run].error == p.runs[d.run].error && p'.runs[d.run].failure == p.runs[d.run].failure
          && (p'.dispatchers[u] == d || (!Ending(p'.dispatchers[u].at) && !Ending(d.at))))
  }

  lemma StartLeavesAlone(p: Python, t: Tid, a: StartAction, u: Tid)
    requires ClientInv(p) && StartCan(p, t, a)
    ensures Untouched(p, StartDo(p, t, a), u)
  {
  }

  lemma StopLeavesAlone(p: Python, t: Tid, a: StopAction, u: Tid)
    requires StopCan(p, t, a)
    ensures Untouched(p, StopDo(p, t, a), u)
  {
  }

  lemma DispatchLeavesAlone(p: Python, t: Tid, a: DispatchAction, u: Tid)
    requires RunsInv(p) && DispatchCan(p, t, a) && u != t
    ensures Untouched(p, DispatchDo(p, t, a), u)
  {
    if u in p.dispatchers {
      assert p.runs[p.dispatchers[u].run].worker == u && p.runs[p.dispatchers[t].run].worker == t;
    }
  }

  lemma OthersLeaveAlone(p: Python, t: Tid, a: PyAction, u: Tid)
    requires ClientInv(p) && PyCan(p, t, a) && (a.DispatchStep? ==> u != t)
    ensures Untouched(p, PyDo(p, t, a), u)
  {
    match a
    case Start(x) => StartLeavesAlone(p, t, x, u);
    case Stop(x) => StopLeavesAlone(p, t, x, u);
    case Iterate(x) =>
    case DispatchStep(x) => DispatchLeavesAlone(p, t, x, u);
  }

  lemma OtherEndsStand(p: Python, e: Ends, t: Tid, a: PyAction, u: Tid)
    requires ClientInv(p) && CallbacksThere(p) && PyCan(p, t, a) && HandOf(t, a) != DispatchHand(u)
    requires DispatchEndOk(p, e, u)
    ensures DispatchEndOk(PyDo(p, t, a), Noted(p, e, t, a), u)
  {
    var p' := PyDo(p, t, a);
    OthersLeaveAlone(p, t, a, u);
    if u in p.dispatchers && Ending(p.dispatchers[u].at) {
      var r := p.dispatchers[u].run;
      RunIs(p, r);
      if RunIsCurrent(p', r) {
        RunNeverCurrentAgain(p, t, a, r);
      }
    }
  }

  lemma OwnEndStands(p: Python, e: Ends, t: Tid, a: DispatchAction)
    requires ClientInv(p) && CallbacksThere(p) && DispatchCan(p, t, a) && DispatchEndOk(p, e, t)
    ensures DispatchEndOk(DispatchDo(p, t, a), Noted(p, e, t, DispatchStep(a)), t)
  {
    RunIs(p, p.dispatchers[t].run);
    assert HasCallback(p, p.dispatchers[t].run);
    assert p.fields.current.Some? ==> IsActive(p, p.fields.current.value);
  }

  lemma IterEndStands(p: Python, e: Ends, t: Tid, a: PyAction, u: Tid)
    requires ClientInv(p) && CallsInv(p) && HolderInside(p) && PyCan(p, t, a) && IterEndOk(p, e, u)
    ensures IterEndOk(PyDo(p, t, a), Noted(p, e, t, a), u)
  {
    var p' := PyDo(p, t, a);
    var c := CallOf(p', u);
    if c.Iterating? && c.at.IterDone? {
      assert CallOk(p, u, CallOf(p, u));
      DoneMoves(p, t, a, u);
      if TokenIsCurrent(p', c.token) {
        NeverCurrentAgain(p, t, a, IterHand(u), c.token);
      }
    }
  }

  /** An iterator is done by the step that notes it, and stays so. */
  lemma DoneMoves(p: Python, t: Tid, a: PyAction, u: Tid)
    requires HolderInside(p) && PyCan(p, t, a)
    requires CallOf(PyDo(p, t, a), u).Iterating? && CallOf(PyDo(p, t, a), u).at.IterDone?
    ensures
      var c, c' := CallOf(p, u), CallOf(PyDo(p, t, a), u);
      || (c' == c && HandOf(t, a) != IterHand(u))
      || (c' == c && EndOf(p, t, a).None?)
      || (HandOf(t, a) == IterHand(u) && c.Iterating? && c'.token == c.token && EndOf(p, t, a).Some?
          && !EndOf(p, t, a).value.NeverActivated? && !EndOf(p, t, a).value.FoundFault?
          && (EndOf(p, t, a).value.Superseded? ==> !TokenIsCurrent(p, c.token)))
  {
    if a.Start? || a.Stop? {
      CallersStayUndone(p, t, a, u);
    }
  }

  lemma CallersStayUndone(p: Python, t: Tid, a: PyAction, u: Tid)
    requires HolderInside(p) && PyCan(p, t, a) && (a.Start? || a.Stop?)
    requires CallOf(PyDo(p, t, a), u).Iterating?
    ensures CallOf(PyDo(p, t, a), u) == CallOf(p, u)
  {
    match a
    case Start(x) =>
    case Stop(x) =>
  }

  lemma EndsKept(p: Python, e: Ends, t: Tid, a: PyAction)
    requires PythonInv(p) && ReadersInv(p) && EndsInv(p, e) && PyCan(p, t, a)
    ensures EndsInv(PyDo(p, t, a), Noted(p, e, t, a))
  {
    forall u ensures DispatchEndOk(PyDo(p, t, a), Noted(p, e, t, a), u) {
      if HandOf(t, a) == DispatchHand(u) {
        OwnEndStands(p, e, t, a.step);
      } else {
        OtherEndsStand(p, e, t, a, u);
      }
    }
    forall u ensures IterEndOk(PyDo(p, t, a), Noted(p, e, t, a), u) {
      IterEndStands(p, e, t, a, u);
    }
  }

  // ---------------------------------------------------------------------
  // Every run
  // ---------------------------------------------------------------------

  ghost predicate NotesReach(moves: seq<PyMove>, p: Python, e: Ends) {
    if moves == [] then p == PYTHON_INITIAL && e == map[]
    else
      var m := moves[|moves| - 1];
      exists q, c :: NotesReach(moves[..|moves| - 1], q, c) && PyLeads(q, m, p) && e == Noted(q, c, m.t, m.a)
  }

  lemma {:induction false} EveryNotedState(moves: seq<PyMove>, p: Python, e: Ends)
    requires NotesReach(moves, p, e)
    ensures PythonInv(p) && ReadersInv(p) && EndsInv(p, e)
  {
    if moves == [] {
      DeliveryStarts();
    } else {
      var m := moves[|moves| - 1];
      var q, c :| NotesReach(moves[..|moves| - 1], q, c) && PyLeads(q, m, p) && e == Noted(q, c, m.t, m.a);
      EveryNotedState(moves[..|moves| - 1], q, c);
      PythonKept(q, m.t, m.a);
      ReadersKept(q, m.t, m.a);
      EndsKept(q, c, m.t, m.a);
    }
  }

  /** Every run of the Python client has its notes. */
  lemma {:induction false} EveryRunIsNoted(moves: seq<PyMove>, p: Python)
    requires PythonReaches(moves, p)
    ensures exists e :: NotesReach(moves, p, e)
  {
    if moves == [] {
      assert NotesReach(moves, p, map[]);
    } else {
      var m := moves[|moves| - 1];
      var q :| PythonReaches(moves[..|moves| - 1], q) && PyLeads(q, m, p);
      EveryRunIsNoted(moves[..|moves| - 1], q);
      var c :| NotesReach(moves[..|moves| - 1], q, c);
      assert NotesReach(moves, p, Noted(q, c, m.t, m.a));
    }
  }

  /** In every run: a run whose dispatcher has come to its end reports an error if and only
      if a read, a conversion or the callback raised, and a sensor failure if and only if
      the queue was found closed and faulted; one whose dispatcher has not reports
      nothing; and a current run's dispatcher has not. */
  lemma ReportsInEveryRun(moves: seq<PyMove>, p: Python, e: Ends, r: nat)
    requires NotesReach(moves, p, e) && r < |p.runs|
    ensures
      var run := p.runs[r];
      var h := DispatchHand(run.worker);
      && run.worker in p.dispatchers && p.dispatchers[run.worker].run == r
      && (Reported(p.dispatchers[run.worker].at) ==>
            h in e && (run.error <==> e[h].RaisedError?) && (run.failure <==> e[h].FoundFault?))
      && (!Reported(p.dispatchers[run.worker].at) ==> !run.error && !run.failure)
      && (RunIsCurrent(p, r) ==> !Reported(p.dispatchers[run.worker].at))
  {
    EveryNotedState(moves, p, e);
    RunIs(p, r);
    assert DispatchEndOk(p, e, p.runs[r].worker);
  }

  /** In every run: an iterator ends because it raised, timed out, or found its queue closed
      without a fault, or because its token is not current; never while its token is
      current without one of those. */
  lemma IterationsEndInEveryRun(moves: seq<PyMove>, p: Python, e: Ends, t: Tid)
    requires NotesReach(moves, p, e) && CallOf(p, t).Iterating? && CallOf(p, t).at.IterDone?
    ensures
      && IterHand(t) in e
      && (TokenIsCurrent(p, CallOf(p, t).token) ==>
            e[IterHand(t)] == RaisedError || e[IterHand(t)] == TimedOut || e[IterHand(t)] == FoundEnd)
  {
    EveryNotedState(moves, p, e);
    assert IterEndOk(p, e, t);
  }
}
