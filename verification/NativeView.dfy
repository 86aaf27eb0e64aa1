/**
 The native client as Python sees it: the queue generation, the generation each
 successful start opened, and whether it runs.
 */
module NativeView {

  datatype View = View(generation: nat, born: seq<nat>, running: bool)

  ghost predicate ViewOk(v: View) {
    && (forall i, j :: 0 <= i < j < |v.born| ==> v.born[i] < v.born[j])
    && (forall i :: 0 <= i < |v.born| ==> v.born[i] <= v.generation)
  }

  /** The open queue is that of the run started last. */
  predicate OnLastRun(v: View) {
    v.born != [] && v.born[|v.born| - 1] == v.generation
  }

  /** What a step inside `start` or `stop` may do. */
  ghost predicate Evolves(v: View, v': View) {
    && ViewOk(v') && v.generation <= v'.generation
    && |v.born| <= |v'.born| && v.born == v'.born[..|v.born|]
  }

  /** `start` has returned: it opened exactly one run, or the client was running. */
  predicate Started(entry: View, v: View) {
    v.running && OnLastRun(v) && (if entry.running then |v.born| >= |entry.born| else |v.born| == |entry.born| + 1)
  }
}

/** The native client keeps those promises. */
module NativePromises {
  import opened ClientData
  import opened ClientMoves
  import opened NativeClient
  import opened NativeView
  import Queues = SampleQueues

  function ViewOf(n: Native): View {
    View(n.queue.generation, n.log.born, n.running)
  }

  lemma LifeEvolves(n: Native, t: Tid, a: LifeAction)
    requires NativeInv(n) && LifeCan(n, t, a)
    ensures Evolves(ViewOf(n), ViewOf(LifeDo(n, t, a)))
    ensures n.lock.None? ==> ViewOf(LifeDo(n, t, a)) == ViewOf(n)
  {
    LifeKeepsNative(n, t, a);
  }

  lemma MoveEvolves(n: Native, l: Label, core: Facade)
    requires NativeInv(n) && Moves(n.core, l, core) && Admits(n, l)
    ensures Evolves(ViewOf(n), ViewOf(CoreDo(n, l, core)))
    ensures n.lock.None? ==> ViewOf(CoreDo(n, l, core)) == ViewOf(n)
  {
    MoveKeepsNative(n, l, core);
  }

  /** Without its mutex held, the native client stays as Python sees it; and every
      step only lets it evolve. */
  lemma EveryNativeStepEvolves(n: Native, t: Tid, a: NativeAction)
    requires NativeInv(n) && NativeCan(n, t, a)
    ensures Evolves(ViewOf(n), ViewOf(NativeDo(n, t, a)))
    ensures n.lock.None? ==> ViewOf(NativeDo(n, t, a)) == ViewOf(n)
  {
    match a
    case Life(x) => LifeEvolves(n, t, x);
    case CoreMove(l, core) => MoveEvolves(n, l, core);
    case Read(x) =>
  }

  /** How a `start` ends: at once for a client that runs without a fault; else
      with one new run, whose queue is open; or with an exception, not running and
      with no new run. */
  lemma StartEnds(n: Native, t: Tid)
    requires NativeInv(n)
    ensures LifeCan(n, t, StartLocks) && LifeDo(n, t, StartLocks).lock.None? ==>
              LifeDo(n, t, StartLocks).running && OnLastRun(ViewOf(LifeDo(n, t, StartLocks)))
    ensures LifeCan(n, t, StartRaises) ==>
              var v := ViewOf(LifeDo(n, t, StartRaises));
              v.running && OnLastRun(v) && |v.born| == n.lock.value.entry + 1
    ensures LifeCan(n, t, StartAborts) ==>
              var v := ViewOf(LifeDo(n, t, StartAborts));
              !v.running && |v.born| == n.lock.value.entry
  {
  }

  lemma StopEnds(n: Native, t: Tid, core: Facade)
    requires NativeInv(n) && NativeCan(n, t, CoreMove(StopReturns(t), core))
    ensures !CoreDo(n, StopReturns(t), core).running && CoreDo(n, StopReturns(t), core).lock.None?
  {
  }

  /** A read captures the generation it finds, and its sample is of that
      generation's run. */
  lemma ReadKeepsPromise(n: Native, t: Tid)
    requires NativeInv(n)
    ensures ReadCan(n, t, CallsRead) ==> CallIn(ReadDo(n, t, CallsRead), t) == Reading(n.queue.generation, ReadRunning)
    ensures CallIn(n, t).HasRead? && CallIn(n, t).result.Sample? ==>
              var x := CallIn(n, t).result.sample;
              0 < x.run <= |ViewOf(n).born| && ViewOf(n).born[x.run - 1] == CallIn(n, t).generation
  {
    FinishedCalls(n, t);
  }
}
