/**
 Who reads under which token, why samples are dropped, and the law of delivery over
 every run of the Python client.
 */
module PythonReaders {
  import opened ClientData
  import opened NativeView
  import opened PythonClient
  import opened PythonRuns
  import opened PythonDelivery
  import Queues = SampleQueues

  // ---------------------------------------------------------------------
  // Reasons, and who reads under which token
  // ---------------------------------------------------------------------

  /** The client runs under the token, in the reader's mode. */
  predicate Current(p: Python, h: Hand, token: nat) {
    && p.fields.running && p.fields.token == token
    && (if h.IterHand? then p.fields.mode.IteratorMode? else p.fields.mode.CallbackMode?)
  }

  /** No activated run has the token. */
  ghost predicate NoRunOf(p: Python, token: nat) {
    forall r {:trigger p.runs[r]} :: 0 <= r < |p.runs| && IsActive(p, r) ==> p.runs[r].token != token
  }

  /** An iterator that has found its token current. */
  predicate Reading(c: PyCall) {
    c.Iterating? && (c.at.IterRead? || c.at.IterInRead? || c.at.IterGot?)
  }

  /** Activated runs have tokens of their own. */
  ghost predicate TokensDiffer(p: Python) {
    forall q, r {:trigger p.runs[q], p.runs[r]} :: 0 <= q < r < |p.runs| && IsActive(p, q) && IsActive(p, r) ==>
      p.runs[q].token != p.runs[r].token
  }

  /** A run that can still deliver has its callback. */
  predicate HasCallback(p: Python, r: nat)
    requires r < |p.runs|
  {
    var run := p.runs[r];
    && (run.gate.Shut? ==>
          run.callback.Some? && run.worker in p.dispatchers && p.dispatchers[run.worker].at.AtGate?)
    && (run.gate.Active? && DispatcherLives(p, r) ==> run.callback.Some?)
  }

  ghost predicate CallbacksThere(p: Python) {
    forall r :: 0 <= r < |p.runs| ==> HasCallback(p, r)
  }

  /** No callback run has a token that iterators read under. */
  ghost predicate IteratorsApart(p: Python) {
    && (p.fields.running && p.fields.mode.IteratorMode? ==> NoRunOf(p, p.fields.token))
    && (forall t {:trigger CallOf(p, t)} :: Reading(CallOf(p, t)) ==> NoRunOf(p, CallOf(p, t).token))
  }

  /** The run a step writes; one past the end if it writes none or adds one. */
  function Touched(p: Python, t: Tid, a: PyAction): nat
    requires PyMay(p, t, a)
  {
    match a
    case Start(CallbackStarted) => p.lock.value.section.run
    case Start(CallbackStartFails(_)) => p.lock.value.section.run
    case Stop(Clears) => CallOf(p, t).run
    case DispatchStep(_) => p.dispatchers[t].run
    case _ => |p.runs|
  }

  /** Only that run is written, under its token; a gate that opens stays open, and one
      opens under a new token only. */
  ghost predicate OneRunMoves(p: Python, p': Python, r: nat) {
    && |p.runs| <= |p'.runs| <= |p.runs| + 1
    && (forall i {:trigger p'.runs[i]} :: 0 <= i < |p.runs| && i != r ==> p'.runs[i] == p.runs[i])
    && (r < |p.runs| ==>
          && |p'.runs| == |p.runs| && p'.runs[r].token == p.runs[r].token
          && (p.runs[r].gate.Active? ==> p'.runs[r].gate.Active?)
          && (p'.runs[r].gate.Active? ==> p.runs[r].gate.Active? || p.runs[r].token > p.fields.token))
    && (|p'.runs| > |p.runs| ==> p'.runs[|p.runs|].gate.Shut?)
  }

  ghost predicate DispatchersStay(p: Python, p': Python) {
    forall t {:trigger p'.dispatchers[t]} :: t in p.dispatchers ==>
      t in p'.dispatchers && p'.dispatchers[t].run == p.dispatchers[t].run
  }

  lemma StartMovesOneRun(p: Python, t: Tid, a: StartAction)
    requires ClientInv(p) && StartCan(p, t, a)
    ensures OneRunMoves(p, StartDo(p, t, a), Touched(p, t, Start(a))) && DispatchersStay(p, StartDo(p, t, a))
    ensures p.fields.token <= StartDo(p, t, a).fields.token
  {
    assert p.fields.current.Some? ==> IsActive(p, p.fields.current.value);
  }

  lemma StopMovesOneRun(p: Python, t: Tid, a: StopAction)
    requires StopCan(p, t, a)
    ensures OneRunMoves(p, StopDo(p, t, a), Touched(p, t, Stop(a))) && DispatchersStay(p, StopDo(p, t, a))
    ensures p.fields.token <= StopDo(p, t, a).fields.token
  {
  }

  lemma DispatchMovesOneRun(p: Python, t: Tid, a: DispatchAction)
    requires DispatchCan(p, t, a)
    ensures OneRunMoves(p, DispatchDo(p, t, a), Touched(p, t, DispatchStep(a)))
    ensures DispatchersStay(p, DispatchDo(p, t, a)) && p.fields.token == DispatchDo(p, t, a).fields.token
  {
  }

  lemma EveryStepMovesOneRun(p: Python, t: Tid, a: PyAction)
    requires ClientInv(p) && PyCan(p, t, a)
    ensures OneRunMoves(p, PyDo(p, t, a), Touched(p, t, a)) && DispatchersStay(p, PyDo(p, t, a))
    ensures p.fields.token <= PyDo(p, t, a).fields.token
  {
    match a
    case Start(x) => StartMovesOneRun(p, t, x);
    case Stop(x) => StopMovesOneRun(p, t, x);
    case Iterate(x) =>
    case DispatchStep(x) => DispatchMovesOneRun(p, t, x);
  }

  lemma NoRunStays(p: Python, t: Tid, a: PyAction, token: nat)
    requires ClientInv(p) && PyCan(p, t, a) && NoRunOf(p, token) && token <= p.fields.token
    ensures NoRunOf(PyDo(p, t, a), token)
  {
    EveryStepMovesOneRun(p, t, a);
    var p', r := PyDo(p, t, a), Touched(p, t, a);
    forall i {:trigger p'.runs[i]} | 0 <= i < |p'.runs| && IsActive(p', i) ensures p'.runs[i].token != token {
      if i < |p.runs| {
        var _ := p.runs[i];
      }
    }
  }

  lemma TokensStayApart(p: Python, t: Tid, a: PyAction)
    requires ClientInv(p) && TokensDiffer(p) && PyCan(p, t, a)
    ensures TokensDiffer(PyDo(p, t, a))
  {
    EveryStepMovesOneRun(p, t, a);
    var p' := PyDo(p, t, a);
    forall q, r {:trigger p'.runs[q], p'.runs[r]} | 0 <= q < r < |p'.runs| && IsActive(p', q) && IsActive(p', r)
      ensures p'.runs[q].token != p'.runs[r].token
    {
      assert r < |p.runs|;
      RunIs(p, q);
      RunIs(p, r);
    }
  }

  lemma OthersStartNothing(p: Python, t: Tid, a: PyAction)
    requires LockInv(p) && PyCan(p, t, a) && !a.Start?
    ensures
      var f, f' := p.fields, PyDo(p, t, a).fields;
      f'.token == f.token && (f'.running ==> f.running && (!f.mode.NoMode? ==> f'.mode == f.mode))
  {
    match a
    case Stop(x) =>
    case Iterate(x) =>
    case DispatchStep(x) =>
  }

  /** The client comes to run under a token in one way only. */
  lemma RunningMoves(p: Python, t: Tid, a: PyAction)
    requires ClientInv(p) && PyCan(p, t, a) && PyDo(p, t, a).fields.running
    ensures
      var f, f' := p.fields, PyDo(p, t, a).fields;
      || (f.running && f'.mode == f.mode && f'.token == f.token)
      || (f'.token == f.token + 1 && (f'.mode.IteratorMode? ==> a == Start(IteratorStarted)))
  {
    if !a.Start? {
      OthersStartNothing(p, t, a);
    }
  }

  /** A token that is not current is never current again. */
  lemma NeverCurrentAgain(p: Python, t: Tid, a: PyAction, h: Hand, token: nat)
    requires ClientInv(p) && PyCan(p, t, a) && token <= p.fields.token && Current(PyDo(p, t, a), h, token)
    ensures Current(p, h, token)
  {
    RunningMoves(p, t, a);
  }

  lemma NewTokenHasNoRun(p: Python, t: Tid)
    requires ClientInv(p) && StartCan(p, t, IteratorStarted)
    ensures NoRunOf(StartDo(p, t, IteratorStarted), p.fields.token + 1)
  {
    var p' := StartDo(p, t, IteratorStarted);
    forall r {:trigger p'.runs[r]} | 0 <= r < |p'.runs| && IsActive(p', r)
      ensures p'.runs[r].token != p.fields.token + 1
    {
      RunIs(p, r);
    }
  }

  lemma OthersReadNothing(p: Python, t: Tid, a: PyAction, u: Tid)
    requires PyCan(p, t, a) && Reading(CallOf(PyDo(p, t, a), u)) && (!a.Iterate? || u != t)
    ensures CallOf(PyDo(p, t, a), u) == CallOf(p, u)
  {
    match a
    case Start(x) =>
    case Stop(x) =>
    case Iterate(x) =>
    case DispatchStep(x) =>
  }

  /** Readers come to read by finding their token current. */
  lemma ReadingMoves(p: Python, t: Tid, a: PyAction, u: Tid)
    requires PyCan(p, t, a) && Reading(CallOf(PyDo(p, t, a), u))
    ensures
      var c, c' := CallOf(p, u), CallOf(PyDo(p, t, a), u);
      c.Iterating? && c'.token == c.token && (Reading(c) || TokenIsCurrent(p, c.token))
  {
    if !a.Iterate? || u != t {
      OthersReadNothing(p, t, a, u);
    }
  }

  lemma IteratorsStayApart(p: Python, t: Tid, a: PyAction)
    requires ClientInv(p) && CallsInv(p) && IteratorsApart(p) && PyCan(p, t, a)
    ensures IteratorsApart(PyDo(p, t, a))
  {
    var p' := PyDo(p, t, a);
    if p'.fields.running && p'.fields.mode.IteratorMode? {
      RunningMoves(p, t, a);
      if p'.fields.token == p.fields.token {
        NoRunStays(p, t, a, p.fields.token);
      } else {
        NewTokenHasNoRun(p, t);
      }
    }
    forall u {:trigger CallOf(p', u)} | Reading(CallOf(p', u)) ensures NoRunOf(p', CallOf(p', u).token) {
      ReadingMoves(p, t, a, u);
      assert CallOk(p, u, CallOf(p, u));
      NoRunStays(p, t, a, CallOf(p, u).token);
    }
  }

  lemma StartKeepsCallbacks(p: Python, t: Tid, a: StartAction)
    requires ClientInv(p) && CallbacksThere(p) && StartCan(p, t, a)
    ensures CallbacksThere(StartDo(p, t, a))
  {
    var p' := StartDo(p, t, a);
    forall r | 0 <= r < |p'.runs| ensures HasCallback(p', r) {
      if r < |p.runs| {
        RunIs(p, r);
        assert HasCallback(p, r);
      }
    }
  }

  lemma DispatchKeepsCallbacks(p: Python, t: Tid, a: DispatchAction)
    requires ClientInv(p) && CallbacksThere(p) && DispatchCan(p, t, a)
    ensures CallbacksThere(DispatchDo(p, t, a))
  {
    var p', mine := DispatchDo(p, t, a), p.dispatchers[t].run;
    RunIs(p, mine);
    assert HasCallback(p, mine);
    forall r | 0 <= r < |p'.runs| ensures HasCallback(p', r) {
      RunIs(p, r);
      assert HasCallback(p, r);
    }
  }

  lemma StopKeepsCallbacks(p: Python, t: Tid, a: StopAction)
    requires ClientInv(p) && CallbacksThere(p) && StopCan(p, t, a)
    ensures CallbacksThere(StopDo(p, t, a))
  {
    var p' := StopDo(p, t, a);
    forall r | 0 <= r < |p'.runs| ensures HasCallback(p', r) {
      assert HasCallback(p, r);
    }
  }

  lemma CallbacksStay(p: Python, t: Tid, a: PyAction)
    requires ClientInv(p) && CallbacksThere(p) && PyCan(p, t, a)
    ensures CallbacksThere(PyDo(p, t, a))
  {
    match a
    case Start(x) => StartKeepsCallbacks(p, t, x);
    case Stop(x) => StopKeepsCallbacks(p, t, x);
    case Iterate(x) =>
      assert forall r :: 0 <= r < |p.runs| ==> HasCallback(p, r) && HasCallback(IterDo(p, t, x), r);
    case DispatchStep(x) => DispatchKeepsCallbacks(p, t, x);
  }

  // ---------------------------------------------------------------------
  // Receipts
  // ---------------------------------------------------------------------

  /** The dispatcher's run was activated, under that token. */
  predicate DispatchesUnder(p: Python, t: Tid, token: nat) {
    && t in p.dispatchers && IsActive(p, p.dispatchers[t].run) && p.runs[p.dispatchers[t].run].token == token
  }

  /** Each token is read by iterators only or by one dispatcher only; a sample dropped for
      its token not being current has one that is not; no callback is found cleared. */
  ghost predicate ReceiptOk(p: Python, x: Receipt) {
    && x.token <= p.fields.token
    && (match x.hand case IterHand(_) => NoRunOf(p, x.token) case DispatchHand(t) => DispatchesUnder(p, t, x.token))
    && (x.fate == Dropped(NotCurrent) ==> !Current(p, x.hand, x.token))
    && x.fate != Dropped(CallbackCleared)
  }

  ghost predicate ReceiptsOk(p: Python, b: Books) {
    forall i :: 0 <= i < |b.log| ==> ReceiptOk(p, b.log[i])
  }

  ghost predicate ReadersInv(p: Python) {
    HolderInside(p) && TokensDiffer(p) && CallbacksThere(p) && IteratorsApart(p)
  }

  lemma DispatcherStays(p: Python, t: Tid, a: PyAction, u: Tid, token: nat)
    requires ClientInv(p) && PyCan(p, t, a) && DispatchesUnder(p, u, token)
    ensures DispatchesUnder(PyDo(p, t, a), u, token)
  {
    EveryStepMovesOneRun(p, t, a);
    var r := p.dispatchers[u].run;
    var _ := PyDo(p, t, a).runs[r];
  }

  lemma ReceiptStays(p: Python, t: Tid, a: PyAction, x: Receipt)
    requires ClientInv(p) && PyCan(p, t, a) && ReceiptOk(p, x)
    ensures ReceiptOk(PyDo(p, t, a), x)
  {
    EveryStepMovesOneRun(p, t, a);
    match x.hand {
      case IterHand(_) => NoRunStays(p, t, a, x.token);
      case DispatchHand(u) => DispatcherStays(p, t, a, u, x.token);
    }
    if Current(PyDo(p, t, a), x.hand, x.token) {
      NeverCurrentAgain(p, t, a, x.hand, x.token);
    }
  }

  /** A dispatcher past its gate is that of the run that `_callback_run` holds. */
  lemma DispatcherInLoop(p: Python, t: Tid)
    requires PythonInv(p) && t in p.dispatchers && !Outside(p.dispatchers[t].at)
    ensures
      var r := p.dispatchers[t].run;
      && r < |p.runs| && DispatchesUnder(p, t, p.runs[r].token) && p.runs[r].token <= p.fields.token
      && p.fields.current == Some(r) && DispatcherLives(p, r)
  {
    RunIs(p, p.dispatchers[t].run);
  }

  lemma NewReceiptOk(p: Python, t: Tid, a: PyAction, o: Out)
    requires PythonInv(p) && ReadersInv(p) && PyCan(p, t, a) && Received(p, t, a) == Some(o)
    ensures ReceiptOk(p, Receipt(o.token, o.item, HandOf(t, a), InHand))
  {
    if a.DispatchStep? {
      DispatcherInLoop(p, t);
    } else {
      assert CallOk(p, t, CallOf(p, t));
      assert Reading(CallOf(p, t));
    }
  }

  lemma SettledOk(p: Python, t: Tid, a: PyAction, n: nat)
    requires PythonInv(p) && ReadersInv(p) && PyCan(p, t, a) && Held(p, HandOf(t, a)).Some?
    ensures
      var h, fate := HandOf(t, a), Settled(p, t, a, n);
      && (fate == Dropped(NotCurrent) ==> !Current(p, h, Held(p, h).value.token))
      && fate != Dropped(CallbackCleared)
  {
    if a.DispatchStep? {
      DispatcherInLoop(p, t);
      assert HasCallback(p, p.dispatchers[t].run);
    }
  }

  lemma ReceiptsKept(p: Python, b: Books, t: Tid, a: PyAction)
    requires PythonInv(p) && ReadersInv(p) && HandsInv(p, b) && ReceiptsOk(p, b) && PyCan(p, t, a)
    ensures ReceiptsOk(PyDo(p, t, a), Watched(p, b, t, a))
  {
    var h, b' := HandOf(t, a), Watched(p, b, t, a);
    if Received(p, t, a).Some? {
      NewReceiptOk(p, t, a, Received(p, t, a).value);
    } else if Held(p, h).Some? {
      SettledOk(p, t, a, |b.log|);
    }
    assert ReceiptsOk(p, b');
    forall i | 0 <= i < |b'.log| ensures ReceiptOk(PyDo(p, t, a), b'.log[i]) {
      ReceiptStays(p, t, a, b'.log[i]);
    }
  }

  // ---------------------------------------------------------------------
  // Every run
  // ---------------------------------------------------------------------

  ghost predicate DeliveryInv(p: Python, b: Books) {
    PythonInv(p) && ReadersInv(p) && BooksInv(p, b) && TokensAgree(p.out, b) && ReceiptsOk(p, b)
  }

  lemma ReadersKept(p: Python, t: Tid, a: PyAction)
    requires PythonInv(p) && ReadersInv(p) && PyCan(p, t, a)
    ensures ReadersInv(PyDo(p, t, a))
  {
    HolderStaysInside(p, t, a);
    TokensStayApart(p, t, a);
    CallbacksStay(p, t, a);
    IteratorsStayApart(p, t, a);
  }

  lemma DeliveryKept(p: Python, b: Books, t: Tid, a: PyAction)
    requires DeliveryInv(p, b) && PyCan(p, t, a)
    ensures DeliveryInv(PyDo(p, t, a), Watched(p, b, t, a))
  {
    PythonKept(p, t, a);
    ReadersKept(p, t, a);
    BooksKept(p, b, t, a);
    AgreementKept(p, b, t, a);
    ReceiptsKept(p, b, t, a);
  }

  /** The run leads to the state, and its observer to the books. */
  ghost predicate WatchReaches(moves: seq<PyMove>, p: Python, b: Books) {
    if moves == [] then p == PYTHON_INITIAL && b == NO_BOOKS
    else
      var m := moves[|moves| - 1];
      exists q, c :: WatchReaches(moves[..|moves| - 1], q, c) && PyLeads(q, m, p) && b == Watched(q, c, m.t, m.a)
  }

  lemma DeliveryStarts()
    ensures DeliveryInv(PYTHON_INITIAL, NO_BOOKS)
  {
    PythonStarts();
    assert forall token {:trigger Outs([], token)} :: Outs([], token) == YieldedUnder([], token);
  }

  lemma {:induction false} EveryWatchedState(moves: seq<PyMove>, p: Python, b: Books)
    requires WatchReaches(moves, p, b)
    ensures DeliveryInv(p, b)
  {
    if moves == [] {
      DeliveryStarts();
    } else {
      var m := moves[|moves| - 1];
      var q, c :| WatchReaches(moves[..|moves| - 1], q, c) && PyLeads(q, m, p) && b == Watched(q, c, m.t, m.a);
      EveryWatchedState(moves[..|moves| - 1], q, c);
      DeliveryKept(q, c, m.t, m.a);
    }
  }

  /** Every run of the Python client has its books. */
  lemma {:induction false} EveryRunHasBooks(moves: seq<PyMove>, p: Python)
    requires PythonReaches(moves, p)
    ensures exists b :: WatchReaches(moves, p, b)
  {
    if moves == [] {
      assert WatchReaches(moves, p, NO_BOOKS);
    } else {
      var m := moves[|moves| - 1];
      var q :| PythonReaches(moves[..|moves| - 1], q) && PyLeads(q, m, p);
      EveryRunHasBooks(moves[..|moves| - 1], q);
      var c :| WatchReaches(moves[..|moves| - 1], q, c);
      assert WatchReaches(moves, p, Watched(q, c, m.t, m.a));
    }
  }

  /** What became of a sample is true of the state: it is in its reader's hand, it stands
      at its place of the output, or its token is no longer current; the only other
      samples without an output are those an exception took. */
  ghost predicate Accounted(p: Python, x: Receipt) {
    match x.fate
    case InHand => Held(p, x.hand) == Some(Out(x.token, x.item))
    case Yielded(place, _) => place < |p.out| && p.out[place] == Out(x.token, x.item)
    case Dropped(NotCurrent) => !Current(p, x.hand, x.token)
    case Dropped(CallbackCleared) => false
    case Dropped(Raised) => true
  }

  /** The law of delivery, in every run: every sample a read gave an iterator or a
      dispatcher is accounted for; every output is a sample received, no two outputs the
      same one; and every sample in a reader's hand was received by it. */
  lemma DeliveryInEveryRun(moves: seq<PyMove>, p: Python, b: Books)
    requires WatchReaches(moves, p, b)
    ensures forall i :: 0 <= i < |b.log| ==> Accounted(p, b.log[i])
    ensures |b.from| == |p.out|
    ensures forall k {:trigger b.from[k]} :: 0 <= k < |p.out| ==>
              b.from[k] < |b.log| && b.log[b.from[k]].fate.Yielded? && b.log[b.from[k]].fate.place == k
    ensures forall i, j {:trigger b.log[i], b.log[j]} :: 0 <= i < j < |b.log| ==>
              b.log[i].fate.Yielded? && b.log[j].fate.Yielded? ==> b.log[i].fate.place != b.log[j].fate.place
    ensures forall h {:trigger Held(p, h)} :: Held(p, h).Some? ==>
              h in b.hands && b.hands[h] < |b.log| && b.log[b.hands[h]].hand == h && b.log[b.hands[h]].fate.InHand?
  {
    EveryWatchedState(moves, p, b);
    forall i | 0 <= i < |b.log| ensures Accounted(p, b.log[i]) {
      assert ReceiptOk(p, b.log[i]);
    }
  }

  /** A reader yields its samples in the order it received them; across readers, a sample
      yielded before another was received stands before it. */
  lemma ReadersKeepOrder(moves: seq<PyMove>, p: Python, b: Books, i: nat, j: nat)
    requires WatchReaches(moves, p, b) && i < j < |b.log|
    requires b.log[i].fate.Yielded? && b.log[j].fate.Yielded?
    requires b.log[i].hand == b.log[j].hand || b.log[i].fate.received <= j
    ensures b.log[i].fate.place < b.log[j].fate.place
  {
    EveryWatchedState(moves, p, b);
  }

  /** All that is received under the token of a callback run is received by its dispatcher. */
  lemma CallbackTokensHaveOneReader(moves: seq<PyMove>, p: Python, b: Books, i: nat)
    requires WatchReaches(moves, p, b) && i < |b.log| && b.log[i].hand.DispatchHand?
    ensures OneReader(b.log, b.log[i].token)
  {
    EveryWatchedState(moves, p, b);
    forall j {:trigger b.log[j]} | 0 <= j < |b.log| && b.log[j].token == b.log[i].token
      ensures b.log[j].hand == b.log[i].hand
    {
      assert ReceiptOk(p, b.log[i]) && ReceiptOk(p, b.log[j]);
      SameTokenSameHand(p, b.log[i], b.log[j]);
    }
  }

  lemma SameTokenSameHand(p: Python, x: Receipt, y: Receipt)
    requires RunsInv(p) && TokensDiffer(p) && ReceiptOk(p, x) && ReceiptOk(p, y)
    requires x.hand.DispatchHand? && x.token == y.token
    ensures x.hand == y.hand
  {
    var r := p.dispatchers[x.hand.t].run;
    assert p.runs[r].token == x.token;
    if y.hand.DispatchHand? {
      var q := p.dispatchers[y.hand.t].run;
      assert p.runs[q].token == y.token;
      assert p.runs[r].worker == x.hand.t && p.runs[q].worker == y.hand.t;
    }
  }

  predicate ReadByDispatcher(log: seq<Receipt>, token: nat) {
    exists i :: 0 <= i < |log| && log[i].hand.DispatchHand? && log[i].token == token
  }

  /** Where one reader reads under a token, and so for every callback run, the output under
      the token is, in order, what was received under it and yielded. */
  lemma TokenInOrder(moves: seq<PyMove>, p: Python, b: Books, token: nat)
    requires WatchReaches(moves, p, b)
    requires OneReader(b.log, token) || ReadByDispatcher(b.log, token)
    ensures Outs(p.out, token) == YieldedUnder(b.log, token)
  {
    EveryWatchedState(moves, p, b);
    if !OneReader(b.log, token) {
      var i :| 0 <= i < |b.log| && b.log[i].hand.DispatchHand? && b.log[i].token == token;
      CallbackTokensHaveOneReader(moves, p, b, i);
    }
  }

  // ---------------------------------------------------------------------
  // Two iterators under one token
  // ---------------------------------------------------------------------

  ghost predicate Possible(p: Python, b: Books) {
    exists moves :: WatchReaches(moves, p, b)
  }

  lemma Goes(p: Python, b: Books, t: Tid, a: PyAction) returns (p': Python, b': Books)
    requires Possible(p, b) && PyCan(p, t, a)
    ensures p' == PyDo(p, t, a) && b' == Watched(p, b, t, a) && Possible(p', b')
  {
    p', b' := PyDo(p, t, a), Watched(p, b, t, a);
    var moves :| WatchReaches(moves, p, b);
    var longer := moves + [PyMove(t, a)];
    assert longer[..|longer| - 1] == moves && longer[|longer| - 1] == PyMove(t, a);
    assert WatchReaches(longer, p', b');
  }

  lemma GoesStart(p: Python, b: Books, t: Tid, a: StartAction) returns (p': Python)
    requires Possible(p, b) && StartCan(p, t, a)
    ensures p' == StartDo(p, t, a) && Possible(p', b)
  {
    var b': Books;
    p', b' := Goes(p, b, t, Start(a));
  }

  /** A step that receives and settles nothing. */
  lemma GoesIter(p: Python, b: Books, t: Tid, a: IterAction) returns (p': Python)
    requires Possible(p, b) && IterCan(p, t, a) && (a.CallsSamples? || a.IterChecks? || a.IterReads?)
    ensures p' == IterDo(p, t, a) && Possible(p', b)
  {
    var b': Books;
    p', b' := Goes(p, b, t, Iterate(a));
  }

  lemma GoesReceive(p: Python, b: Books, t: Tid, token: nat, generation: nat, x: Item) returns (p': Python)
    requires Possible(p, b) && CallOf(p, t) == Iterating(token, IterInRead(generation))
    requires ReadFits(p.native, generation, Queues.Sample(x))
    ensures p' == SetCall(p, t, Iterating(token, IterGot(generation, Queues.Sample(x))))
    ensures Possible(p', Receive(b, IterHand(t), Out(token, x)))
  {
    var b': Books;
    p', b' := Goes(p, b, t, Iterate(IterReceives(Queues.Sample(x))));
  }

  lemma GoesYield(p: Python, b: Books, t: Tid, token: nat, generation: nat, x: Item) returns (p': Python)
    requires Possible(p, b) && CallOf(p, t) == Iterating(token, IterGot(generation, Queues.Sample(x)))
    requires p.lock.None? && TokenIsCurrent(p, token)
    ensures p' == SetCall(p.(out := p.out + [Out(token, x)]), t, Iterating(token, IterCheck))
    ensures Possible(p', Settle(b, IterHand(t), Yielded(|p.out|, |b.log|)))
  {
    var b': Books;
    p', b' := Goes(p, b, t, Iterate(IterDecides));
  }

  /** An iterator run under token 1 has begun. */
  lemma RunBegins(t: Tid) returns (p: Python)
    ensures Possible(p, NO_BOOKS) && p.lock.None? && p.fields == Fields(true, IteratorMode, 1, None)
    ensures p.native == View(0, [0], true) && p.calls == map[t := Idle] && p.dispatchers == map[] && p.out == []
  {
    assert WatchReaches([], PYTHON_INITIAL, NO_BOOKS);
    p := GoesStart(PYTHON_INITIAL, NO_BOOKS, t, CallsStart(IteratorMode, 0));
    p := GoesStart(p, NO_BOOKS, t, StartsIterator);
    p := GoesStart(p, NO_BOOKS, t, NativeEvolves(View(0, [0], true)));
    p := GoesStart(p, NO_BOOKS, t, IteratorStarted);
  }

  lemma SetTwice(p: Python, t: Tid, c: PyCall, d: PyCall)
    ensures SetCall(SetCall(p, t, c), t, d) == SetCall(p, t, d)
  {
    assert p.calls[t := c][t := d] == p.calls[t := d];
  }

  /** One more iterator is made and comes to its read. */
  lemma IteratorBegins(p: Python, b: Books, t: Tid) returns (p': Python)
    requires Possible(p, b) && p.lock.None? && MayCall(p, t)
    requires p.fields.running && p.fields.mode.IteratorMode?
    ensures Possible(p', b) && p' == SetCall(p, t, Iterating(p.fields.token, IterInRead(p.native.generation)))
  {
    var k, g := p.fields.token, p.native.generation;
    p' := GoesIter(p, b, t, CallsSamples);
    assert p' == SetCall(p, t, Iterating(k, IterCheck));
    p' := GoesIter(p', b, t, IterChecks);
    SetTwice(p, t, Iterating(k, IterCheck), Iterating(k, IterRead));
    assert p' == SetCall(p, t, Iterating(k, IterRead));
    p' := GoesIter(p', b, t, IterReads);
    SetTwice(p, t, Iterating(k, IterRead), Iterating(k, IterInRead(g)));
  }

  /** The books of two samples received in one order and yielded in the other. */
  function Crossed(t: Tid, u: Tid, x: Item, y: Item): Books {
    var b := Receive(Receive(NO_BOOKS, IterHand(t), Out(1, x)), IterHand(u), Out(1, y));
    Settle(Settle(b, IterHand(u), Yielded(0, 2)), IterHand(t), Yielded(1, 2))
  }

  lemma CrossedYields(t: Tid, u: Tid, x: Item, y: Item)
    requires t != u
    ensures YieldedUnder(Crossed(t, u, x, y).log, 1) == [x, y]
  {
    var p, q := Receipt(1, x, IterHand(t), Yielded(1, 2)), Receipt(1, y, IterHand(u), Yielded(0, 2));
    assert Crossed(t, u, x, y).log == [p, q];
    assert [p, q][..1] == [p] && [p][..0] == [];
    assert YieldedUnder([p], 1) == [x];
  }

  lemma OutsOfTwo(x: Item, y: Item, token: nat)
    ensures Outs([Out(token, x), Out(token, y)], token) == [x, y]
  {
    var first, second := Out(token, x), Out(token, y);
    assert [first, second][..1] == [first] && [first][..0] == [];
    assert Outs([first], token) == [x];
  }

  /** Two iterators of one run may yield in another order than they received: for any two
      samples of the run, the output under the token can be out of order. */
  lemma IteratorsMayCross(t: Tid, u: Tid, x: Item, y: Item)
    requires t != u && x != y && x.run == y.run == 1
    ensures exists p, b :: Possible(p, b) && YieldedUnder(b.log, 1) == [x, y] && Outs(p.out, 1) == [y, x]
  {
    var p := RunBegins(t);
    p := IteratorBegins(p, NO_BOOKS, t);
    p := IteratorBegins(p, NO_BOOKS, u);
    var b1 := Receive(NO_BOOKS, IterHand(t), Out(1, x));
    var b2 := Receive(b1, IterHand(u), Out(1, y));
    p := GoesReceive(p, NO_BOOKS, t, 1, 0, x);
    p := GoesReceive(p, b1, u, 1, 0, y);
    p := GoesYield(p, b2, u, 1, 0, y);
    p := GoesYield(p, Settle(b2, IterHand(u), Yielded(0, 2)), t, 1, 0, x);
    CrossedYields(t, u, x, y);
    OutsOfTwo(y, x, 1);
    assert p.out == [Out(1, y), Out(1, x)] && Possible(p, Crossed(t, u, x, y));
  }
}
