/**
 What becomes of every sample a native read gives an iterator or a dispatcher.

 An observer beside the Python client writes down each sample received, by whom and
 under which token, and what the rules of `_iterate_samples` and `_dispatch_callback`
 then do with it.  The books balance in every run: each sample is still in hand, was
 yielded at its own place of the output, or was dropped for a reason that stands.
 */
module PythonDelivery {
  import opened ClientData
  import opened NativeView
  import opened PythonClient
  import opened PythonRuns
  import Queues = SampleQueues

  // ---------------------------------------------------------------------
  // The observer
  // ---------------------------------------------------------------------

  /** Who reads: an iterator, or a dispatcher. */
  datatype Hand = IterHand(t: Tid) | DispatchHand(t: Tid)

  datatype Why = NotCurrent | CallbackCleared | Raised

  /** `received` is how many samples had been received by then. */
  datatype Fate = InHand | Yielded(place: nat, received: nat) | Dropped(why: Why)

  datatype Receipt = Receipt(token: nat, item: Item, hand: Hand, fate: Fate)

  /** `from[k]` is the receipt yielded at place `k`; `hands` the receipts in hand. */
  datatype Books = Books(log: seq<Receipt>, from: seq<nat>, hands: map<Hand, nat>)

  const NO_BOOKS := Books([], [], map[])

  function HandOf(t: Tid, a: PyAction): Hand {
    if a.DispatchStep? then DispatchHand(t) else IterHand(t)
  }

  /** The sample the step receives, under its token. */
  function Received(p: Python, t: Tid, a: PyAction): Option<Out>
    requires PyMay(p, t, a)
  {
    match a
    case Iterate(IterReceives(Sample(x))) => Some(Out(CallOf(p, t).token, x))
    case DispatchStep(Receives(Sample(x))) => Some(Out(p.runs[p.dispatchers[t].run].token, x))
    case _ => None
  }

  /** What the step does with a sample in hand, `n` having been received so far. */
  function Settled(p: Python, t: Tid, a: PyAction, n: nat): Fate
    requires PyMay(p, t, a)
  {
    match a
    case Iterate(IterRaises) => Dropped(Raised)
    case Iterate(IterDecides) =>
      if TokenIsCurrent(p, CallOf(p, t).token) then Yielded(|p.out|, n) else Dropped(NotCurrent)
    case DispatchStep(Raises) => Dropped(Raised)
    case DispatchStep(Decides) => if RunIsCurrent(p, p.dispatchers[t].run) then InHand else Dropped(NotCurrent)
    case DispatchStep(ChecksAgain) => if RunIsCurrent(p, p.dispatchers[t].run) then InHand else Dropped(NotCurrent)
    case DispatchStep(Calls) =>
      if p.runs[p.dispatchers[t].run].callback.Some? then Yielded(|p.out|, n) else Dropped(CallbackCleared)
    case _ => InHand
  }

  function Receive(b: Books, h: Hand, o: Out): Books {
    b.(log := b.log + [Receipt(o.token, o.item, h, InHand)], hands := b.hands[h := |b.log|])
  }

  function Settle(b: Books, h: Hand, fate: Fate): Books {
    if h !in b.hands || fate.InHand? || b.hands[h] >= |b.log| then b
    else
      var i := b.hands[h];
      Books(b.log[i := b.log[i].(fate := fate)], if fate.Yielded? then b.from + [i] else b.from, b.hands - {h})
  }

  /** The books after a step. */
  function Watched(p: Python, b: Books, t: Tid, a: PyAction): Books
    requires PyMay(p, t, a)
  {
    match Received(p, t, a)
    case Some(o) => Receive(b, HandOf(t, a), o)
    case None => Settle(b, HandOf(t, a), Settled(p, t, a, |b.log|))
  }

  // ---------------------------------------------------------------------
  // What hands hold
  // ---------------------------------------------------------------------

  function AtHand(at: DispatchPoint): Option<Item> {
    match at
    case Got(_, Sample(x)) => Some(x)
    case Converted(x) => Some(x)
    case Ready(x) => Some(x)
    case _ => None
  }

  /** The sample a reader has received and not yet settled. */
  function Held(p: Python, h: Hand): Option<Out> {
    match h
    case IterHand(t) =>
      var c := CallOf(p, t);
      if c.Iterating? && c.at.IterGot? && c.at.result.Sample? then Some(Out(c.token, c.at.result.sample)) else None
    case DispatchHand(t) =>
      if t in p.dispatchers && p.dispatchers[t].run < |p.runs| && AtHand(p.dispatchers[t].at).Some?
      then Some(Out(p.runs[p.dispatchers[t].run].token, AtHand(p.dispatchers[t].at).value)) else None
  }

  /** Whoever holds `_lock` for a call of its own is inside that call. */
  predicate HolderInside(p: Python) {
    p.lock.Some? && !p.lock.value.section.StoppingDispatcher? ==> CallOf(p, p.lock.value.tid).Inside?
  }

  lemma HolderStaysInside(p: Python, t: Tid, a: PyAction)
    requires HolderInside(p) && PyCan(p, t, a)
    ensures HolderInside(PyDo(p, t, a))
  {
    match a
    case Start(x) =>
    case Stop(x) =>
    case Iterate(x) =>
    case DispatchStep(x) =>
  }

  lemma StartHoldsStill(p: Python, t: Tid, a: StartAction, h: Hand)
    requires RunsInv(p) && HolderInside(p) && StartCan(p, t, a)
    ensures Held(StartDo(p, t, a), h) == Held(p, h) && StartDo(p, t, a).out == p.out
  {
  }

  lemma StopHoldsStill(p: Python, t: Tid, a: StopAction, h: Hand)
    requires HolderInside(p) && StopCan(p, t, a)
    ensures Held(StopDo(p, t, a), h) == Held(p, h) && StopDo(p, t, a).out == p.out
  {
  }

  lemma IterHoldsStill(p: Python, t: Tid, a: IterAction, h: Hand)
    requires IterCan(p, t, a) && h != IterHand(t)
    ensures Held(IterDo(p, t, a), h) == Held(p, h)
  {
  }

  lemma DispatchHoldsStill(p: Python, t: Tid, a: DispatchAction, h: Hand)
    requires DispatchCan(p, t, a) && h != DispatchHand(t)
    ensures Held(DispatchDo(p, t, a), h) == Held(p, h)
  {
    var r, p' := p.dispatchers[t].run, DispatchDo(p, t, a);
    assert p'.runs[r].token == p.runs[r].token && p'.runs == p.runs[r := p'.runs[r]];
  }

  /** A step changes nothing in any hand but its own. */
  lemma OtherHandsStandStill(p: Python, t: Tid, a: PyAction, h: Hand)
    requires RunsInv(p) && HolderInside(p) && PyCan(p, t, a) && h != HandOf(t, a)
    ensures Held(PyDo(p, t, a), h) == Held(p, h)
  {
    match a
    case Start(x) => StartHoldsStill(p, t, x, h);
    case Stop(x) => StopHoldsStill(p, t, x, h);
    case Iterate(x) => IterHoldsStill(p, t, x, h);
    case DispatchStep(x) => DispatchHoldsStill(p, t, x, h);
  }

  /** The hand takes what is received and keeps it until it is settled; what is settled
      as yielded, and nothing else, is put out. */
  ghost predicate HandMoves(p: Python, p': Python, h: Hand, received: Option<Out>, fate: Fate) {
    if received.Some?
    then Held(p, h).None? && Held(p', h) == received && p'.out == p.out
    else
      && Held(p', h) == (if fate.InHand? then Held(p, h) else None)
      && p'.out == (if fate.Yielded? && Held(p, h).Some? then p.out + [Held(p, h).value] else p.out)
  }

  lemma IterHandMoves(p: Python, t: Tid, a: IterAction, n: nat)
    requires HolderInside(p) && IterCan(p, t, a)
    ensures HandMoves(p, IterDo(p, t, a), IterHand(t), Received(p, t, Iterate(a)), Settled(p, t, Iterate(a), n))
  {
  }

  lemma DispatchHandMoves(p: Python, t: Tid, a: DispatchAction, n: nat)
    requires DispatchCan(p, t, a)
    ensures HandMoves(p, DispatchDo(p, t, a), DispatchHand(t),
                      Received(p, t, DispatchStep(a)), Settled(p, t, DispatchStep(a), n))
  {
    var r, p' := p.dispatchers[t].run, DispatchDo(p, t, a);
    assert p'.runs[r].token == p.runs[r].token;
  }

  lemma OwnHandMoves(p: Python, t: Tid, a: PyAction, n: nat)
    requires RunsInv(p) && HolderInside(p) && PyCan(p, t, a)
    ensures HandMoves(p, PyDo(p, t, a), HandOf(t, a), Received(p, t, a), Settled(p, t, a, n))
  {
    match a
    case Start(x) => StartHoldsStill(p, t, x, IterHand(t));
    case Stop(x) => StopHoldsStill(p, t, x, IterHand(t));
    case Iterate(x) => IterHandMoves(p, t, x, n);
    case DispatchStep(x) => DispatchHandMoves(p, t, x, n);
  }

  // ---------------------------------------------------------------------
  // The books
  // ---------------------------------------------------------------------

  /** What is in hand in the books is what the readers hold. */
  ghost predicate HandsInv(p: Python, b: Books) {
    && (forall h {:trigger Held(p, h)} :: h in b.hands <==> Held(p, h).Some?)
    && (forall h {:trigger b.hands[h]} :: h in b.hands ==> b.hands[h] < |b.log|)
    && (forall h {:trigger b.hands[h]} :: h in b.hands && Held(p, h).Some? ==>
          b.log[b.hands[h]] == Receipt(Held(p, h).value.token, Held(p, h).value.item, h, InHand))
    && (forall i {:trigger b.log[i]} :: 0 <= i < |b.log| && b.log[i].fate.InHand? ==>
          b.log[i].hand in b.hands && b.hands[b.log[i].hand] == i)
  }

  /** What is yielded in the books is what is put out, place by place. */
  predicate PlacesInv(out: seq<Out>, b: Books) {
    && |b.from| == |out|
    && (forall k {:trigger b.from[k]} :: 0 <= k < |out| ==>
          && b.from[k] < |b.log| && b.log[b.from[k]].fate.Yielded? && b.log[b.from[k]].fate.place == k
          && out[k] == Out(b.log[b.from[k]].token, b.log[b.from[k]].item))
    && (forall i {:trigger b.log[i]} :: 0 <= i < |b.log| && b.log[i].fate.Yielded? ==>
          b.log[i].fate.place < |out| && b.from[b.log[i].fate.place] == i && b.log[i].fate.received <= |b.log|)
  }

  /** What was yielded before another sample was received comes before it; and a reader
      settles one sample before it receives the next. */
  predicate OrderInv(b: Books) {
    && (forall i, j {:trigger b.log[i], b.log[j]} :: 0 <= i < |b.log| && 0 <= j < |b.log| ==>
          b.log[i].fate.Yielded? && b.log[j].fate.Yielded? && b.log[i].fate.received <= j ==>
            b.log[i].fate.place < b.log[j].fate.place)
    && (forall i, j {:trigger b.log[i], b.log[j]} :: 0 <= i < j < |b.log| && b.log[i].hand == b.log[j].hand ==>
          !b.log[i].fate.InHand? && (b.log[i].fate.Yielded? ==> b.log[i].fate.received <= j))
  }

  ghost predicate BooksInv(p: Python, b: Books) {
    HandsInv(p, b) && PlacesInv(p.out, b) && OrderInv(b)
  }

  lemma ReceiveKeepsHands(p: Python, p': Python, b: Books, h: Hand, o: Out)
    requires HandsInv(p, b) && Held(p, h).None? && Held(p', h) == Some(o)
    requires forall g {:trigger Held(p', g)} :: g != h ==> Held(p', g) == Held(p, g)
    ensures HandsInv(p', Receive(b, h, o))
  {
  }

  lemma ReceiveKeepsPlaces(p: Python, b: Books, h: Hand, o: Out)
    requires BooksInv(p, b) && Held(p, h).None?
    ensures PlacesInv(p.out, Receive(b, h, o))
  {
  }

  lemma ReceiveKeepsOrder(p: Python, b: Books, h: Hand, o: Out)
    requires BooksInv(p, b) && Held(p, h).None?
    ensures OrderInv(Receive(b, h, o))
  {
  }

  /** The books have that sample in that hand. */
  predicate IsInHand(b: Books, h: Hand, o: Out) {
    h in b.hands && b.hands[h] < |b.log| && b.log[b.hands[h]] == Receipt(o.token, o.item, h, InHand)
  }

  lemma DropKeepsPlaces(out: seq<Out>, b: Books, h: Hand, fate: Fate, o: Out)
    requires PlacesInv(out, b) && IsInHand(b, h, o) && fate.Dropped?
    ensures PlacesInv(out, Settle(b, h, fate))
  {
  }

  lemma YieldKeepsPlaces(out: seq<Out>, b: Books, h: Hand, fate: Fate, o: Out)
    requires PlacesInv(out, b) && IsInHand(b, h, o) && fate == Yielded(|out|, |b.log|)
    ensures PlacesInv(out + [o], Settle(b, h, fate))
  {
  }

  lemma SettleKeepsOrder(out: seq<Out>, b: Books, h: Hand, fate: Fate, o: Out)
    requires PlacesInv(out, b) && OrderInv(b) && IsInHand(b, h, o)
    requires fate == Yielded(|out|, |b.log|) || fate.Dropped?
    ensures OrderInv(Settle(b, h, fate))
  {
  }

  lemma SettleKeepsHands(p: Python, p': Python, b: Books, h: Hand, fate: Fate)
    requires HandsInv(p, b) && h in b.hands && !fate.InHand? && Held(p', h).None?
    requires forall g {:trigger Held(p', g)} :: g != h ==> Held(p', g) == Held(p, g)
    ensures HandsInv(p', Settle(b, h, fate))
  {
    var i, b' := b.hands[h], Settle(b, h, fate);
    assert Held(p, h).Some? && b.log[i].hand == h;
    forall g {:trigger b'.hands[g]} | g in b'.hands ensures b'.hands[g] == b.hands[g] != i {
      assert Held(p, g).Some? && b.log[b.hands[g]].hand == g;
    }
  }

  lemma SettleKeeps(p: Python, p': Python, b: Books, h: Hand, fate: Fate)
    requires BooksInv(p, b) && HandMoves(p, p', h, None, fate)
    requires fate.Yielded? ==> fate.place == |p.out| && fate.received == |b.log|
    requires forall g {:trigger Held(p', g)} :: g != h ==> Held(p', g) == Held(p, g)
    ensures BooksInv(p', Settle(b, h, fate))
  {
    if Held(p, h).Some? && !fate.InHand? {
      var o := Held(p, h).value;
      if fate.Yielded? {
        YieldKeepsPlaces(p.out, b, h, fate, o);
      } else {
        DropKeepsPlaces(p.out, b, h, fate, o);
      }
      SettleKeepsOrder(p.out, b, h, fate, o);
      SettleKeepsHands(p, p', b, h, fate);
    } else {
      assert forall g {:trigger Held(p', g)} :: Held(p', g) == Held(p, g);
    }
  }

  lemma BooksKept(p: Python, b: Books, t: Tid, a: PyAction)
    requires RunsInv(p) && HolderInside(p) && BooksInv(p, b) && PyCan(p, t, a)
    ensures BooksInv(PyDo(p, t, a), Watched(p, b, t, a))
  {
    var p', h := PyDo(p, t, a), HandOf(t, a);
    OwnHandMoves(p, t, a, |b.log|);
    forall g {:trigger Held(p', g)} | g != h ensures Held(p', g) == Held(p, g) {
      OtherHandsStandStill(p, t, a, g);
    }
    match Received(p, t, a)
    case Some(o) =>
      ReceiveKeepsHands(p, p', b, h, o);
      ReceiveKeepsPlaces(p, b, h, o);
      ReceiveKeepsOrder(p, b, h, o);
    case None => SettleKeeps(p, p', b, h, Settled(p, t, a, |b.log|));
  }

  // ---------------------------------------------------------------------
  // Token by token
  // ---------------------------------------------------------------------

  /** What is put out under a token, in order. */
  function Outs(out: seq<Out>, token: nat): seq<Item> {
    if out == [] then []
    else
      var last := out[|out| - 1];
      Outs(out[..|out| - 1], token) + (if last.token == token then [last.item] else [])
  }

  /** What was received under a token and yielded, in the order it was received. */
  function YieldedUnder(log: seq<Receipt>, token: nat): seq<Item> {
    if log == [] then []
    else
      var last := log[|log| - 1];
      YieldedUnder(log[..|log| - 1], token) + (if last.token == token && last.fate.Yielded? then [last.item] else [])
  }

  /** All that was received under the token was received by one reader. */
  predicate OneReader(log: seq<Receipt>, token: nat) {
    forall i, j {:trigger log[i], log[j]} :: 0 <= i < j < |log| && log[i].token == log[j].token == token ==>
      log[i].hand == log[j].hand
  }

  ghost predicate TokensAgree(out: seq<Out>, b: Books) {
    forall token {:trigger Outs(out, token)} :: OneReader(b.log, token) ==>
      Outs(out, token) == YieldedUnder(b.log, token)
  }

  lemma {:induction false} SettleYields(log: seq<Receipt>, i: nat, fate: Fate, token: nat)
    requires i < |log| && log[i].fate.InHand?
    requires fate.Yielded? && log[i].token == token ==>
               forall j {:trigger log[j]} :: i < j < |log| ==> log[j].token != token
    ensures YieldedUnder(log[i := log[i].(fate := fate)], token)
         == YieldedUnder(log, token) + (if fate.Yielded? && log[i].token == token then [log[i].item] else [])
  {
    var log', n := log[i := log[i].(fate := fate)], |log| - 1;
    if i == n {
      assert log'[..n] == log[..n];
    } else {
      assert log'[..n] == log[..n][i := log[i].(fate := fate)];
      SettleYields(log[..n], i, fate, token);
      assert log'[n] == log[n];
    }
  }

  lemma OutsGrow(out: seq<Out>, o: Out, token: nat)
    ensures Outs(out + [o], token) == Outs(out, token) + (if o.token == token then [o.item] else [])
  {
    assert (out + [o])[..|out|] == out;
  }

  lemma OneReaderBefore(log: seq<Receipt>, log': seq<Receipt>, token: nat)
    requires OneReader(log', token) && |log| <= |log'|
    requires forall i {:trigger log'[i]} :: 0 <= i < |log| ==>
               log'[i].token == log[i].token && log'[i].hand == log[i].hand
    ensures OneReader(log, token)
  {
    forall i, j {:trigger log[i], log[j]} | 0 <= i < j < |log| && log[i].token == log[j].token == token
      ensures log[i].hand == log[j].hand
    {
      var _ := (log'[i], log'[j]);
    }
  }

  lemma ReceiveAgrees(out: seq<Out>, b: Books, h: Hand, o: Out)
    requires TokensAgree(out, b)
    ensures TokensAgree(out, Receive(b, h, o))
  {
    var log' := Receive(b, h, o).log;
    forall token {:trigger Outs(out, token)} | OneReader(log', token)
      ensures Outs(out, token) == YieldedUnder(log', token)
    {
      OneReaderBefore(b.log, log', token);
      assert log'[..|b.log|] == b.log;
    }
  }

  lemma SettleAgreesOn(p: Python, b: Books, h: Hand, fate: Fate, token: nat)
    requires BooksInv(p, b) && TokensAgree(p.out, b) && h in b.hands && Held(p, h).Some? && !fate.InHand?
    requires OneReader(Settle(b, h, fate).log, token)
    ensures Outs(if fate.Yielded? then p.out + [Held(p, h).value] else p.out, token)
         == YieldedUnder(Settle(b, h, fate).log, token)
  {
    var i := b.hands[h];
    OneReaderBefore(b.log, Settle(b, h, fate).log, token);
    OutsGrow(p.out, Held(p, h).value, token);
    SettleYields(b.log, i, fate, token);
  }

  lemma AgreementKept(p: Python, b: Books, t: Tid, a: PyAction)
    requires RunsInv(p) && HolderInside(p) && BooksInv(p, b) && TokensAgree(p.out, b) && PyCan(p, t, a)
    ensures TokensAgree(PyDo(p, t, a).out, Watched(p, b, t, a))
  {
    var h, fate := HandOf(t, a), Settled(p, t, a, |b.log|);
    OwnHandMoves(p, t, a, |b.log|);
    match Received(p, t, a)
    case Some(o) => ReceiveAgrees(p.out, b, h, o);
    case None =>
      if Held(p, h).Some? && !fate.InHand? {
        forall token {:trigger Outs(PyDo(p, t, a).out, token)} | OneReader(Settle(b, h, fate).log, token)
          ensures Outs(PyDo(p, t, a).out, token) == YieldedUnder(Settle(b, h, fate).log, token)
        {
          SettleAgreesOn(p, b, h, fate, token);
        }
      }
  }
}
