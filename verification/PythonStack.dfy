/**
 All three layers together: the Python client on the native client on the core
 client, with every thread of each, and what reaches the user.
 */
module PythonStack {
  import opened ClientData
  import Lifecycle = ClientLifecycle
  import ClientControl
  import ClientRuns
  import ClientWorld
  import Facade = ClientFacade
  import opened NativePromises
  import Native = NativeClient
  import Stack = NativeStack
  import Py = PythonClient
  import Runs = PythonRuns
  import opened PythonNative

  datatype Full = Full(p: Py.Python, s: Stack.Stack)

  function JointOf(f: Full): Joint {
    Joint(f.p, f.s.native)
  }

  /** A step of Python, or a step of the native client or of the core below it. */
  datatype FullMove = User(t: Tid, a: Py.PyAction) | Layers(t: Tid, b: Stack.StackAction)

  /** Steps of native calls under way, and of the core. */
  predicate StackGoesOn(n: Native.Native, t: Tid, b: Stack.StackAction) {
    match b
    case Below(_, _) => true
    case Life(x) => GoesOn(n, t, Native.Life(x))
    case Read(x) => GoesOn(n, t, Native.Read(x))
  }

  ghost predicate UserLeads(f: Full, t: Tid, a: Py.PyAction, f': Full) {
    && JointCan(JointOf(f), t, JointAction.Above(a))
    && JointOf(f') == JointDo(JointOf(f), t, JointAction.Above(a)) && f'.s.client == f.s.client
  }

  ghost predicate LayersLead(cfg: Config, f: Full, t: Tid, b: Stack.StackAction, f': Full) {
    && StackGoesOn(f.s.native, t, b) && Stack.StackLeads(cfg, f.s, Stack.StackMove(t, b), f'.s)
    && f'.p == f.p.(native := ViewOf(f'.s.native))
  }

  ghost predicate FullLeads(cfg: Config, f: Full, m: FullMove, f': Full) {
    match m
    case User(t, a) => UserLeads(f, t, a, f')
    case Layers(t, b) => LayersLead(cfg, f, t, b, f')
  }

  ghost predicate FullInv(cfg: Config, f: Full) {
    Stack.StackInv(cfg, f.s) && JointInv(JointOf(f)) && ItemsInv(JointOf(f))
  }

  // ---------------------------------------------------------------------
  // Every step keeps it
  // ---------------------------------------------------------------------

  /** A Python step touches nothing of the native client but a call. */
  lemma PartTouchesCalls(n: Native.Native, t: Tid, part: Part)
    ensures
      var n' := PartDo(n, t, part);
      n'.core == n.core && n'.log == n.log && n'.queue == n.queue
  {
  }

  lemma CallsKeepStack(cfg: Config, s: Stack.Stack, n: Native.Native)
    requires Stack.StackInv(cfg, s) && Native.NativeInv(n)
    requires n.core == s.native.core && n.log == s.native.log && n.queue == s.native.queue
    ensures Stack.StackInv(cfg, Stack.Stack.Stack(s.client, n))
  {
  }

  lemma UserKeepsJoint(j: Joint, t: Tid, a: Py.PyAction)
    requires JointInv(j) && ItemsInv(j) && JointCan(j, t, JointAction.Above(a))
    ensures
      var j' := JointDo(j, t, JointAction.Above(a));
      && JointInv(j') && ItemsInv(j') && Py.PyCan(j.p, t, a) && j'.p == Py.PyDo(j.p, t, a)
      && j'.n.core == j.n.core && j'.n.log == j.n.log && j'.n.queue == j.n.queue
  {
    AboveKeepsJoint(j, t, a);
    AboveKeepsItems(j, t, a);
    PartTouchesCalls(j.n, t, PartOf(j.p, t, a));
  }

  lemma UserKeepsFull(cfg: Config, f: Full, t: Tid, a: Py.PyAction, f': Full)
    requires FullInv(cfg, f) && UserLeads(f, t, a, f')
    ensures FullInv(cfg, f') && Py.PyCan(f.p, t, a) && f'.p == Py.PyDo(f.p, t, a)
  {
    UserKeepsJoint(JointOf(f), t, a);
    CallsKeepStack(cfg, f.s, f'.s.native);
  }

  /** A step of the stack is a step of the native client. */
  lemma StackStepIsNative(cfg: Config, s: Stack.Stack, t: Tid, b: Stack.StackAction, s': Stack.Stack)
    returns (x: Native.NativeAction)
    requires Stack.StackInv(cfg, s) && Stack.StackLeads(cfg, s, Stack.StackMove(t, b), s')
    requires StackGoesOn(s.native, t, b)
    ensures Native.NativeCan(s.native, t, x) && GoesOn(s.native, t, x) && s'.native == Native.NativeDo(s.native, t, x)
  {
    match b
    case Below(a, c) =>
      Facade.EveryStepIsAMove(cfg, s.client, t, a, c);
      x := Native.CoreMove(Facade.LabelOf(s.client, t, a), Facade.Abstract(s'.client));
    case Life(l) => x := Native.Life(l);
    case Read(r) => x := Native.Read(r);
  }

  lemma LayersKeepJoint(j: Joint, t: Tid, x: Native.NativeAction, j': Joint)
    requires JointInv(j) && ItemsInv(j) && JointCan(j, t, JointAction.Below(x))
    requires j' == JointDo(j, t, JointAction.Below(x))
    ensures JointInv(j') && ItemsInv(j') && Projects(j.p, j'.p)
  {
    BelowProjects(j, t, x);
    BelowKeepsJoint(j, t, x);
    BelowKeepsItems(j, t, x);
  }

  lemma LayersMoveJoint(cfg: Config, f: Full, t: Tid, b: Stack.StackAction, f': Full)
    requires FullInv(cfg, f) && LayersLead(cfg, f, t, b, f')
    ensures JointInv(JointOf(f')) && ItemsInv(JointOf(f')) && Projects(f.p, f'.p)
  {
    var x := StackStepIsNative(cfg, f.s, t, b, f'.s);
    LayersKeepJoint(JointOf(f), t, x, JointOf(f'));
  }

  lemma LayersKeepFull(cfg: Config, f: Full, t: Tid, b: Stack.StackAction, f': Full)
    requires ValidConfig(cfg) && FullInv(cfg, f) && LayersLead(cfg, f, t, b, f')
    ensures FullInv(cfg, f') && Projects(f.p, f'.p)
  {
    Stack.StackKept(cfg, f.s, t, b);
    LayersMoveJoint(cfg, f, t, b, f');
  }

  // ---------------------------------------------------------------------
  // Every run of the three layers
  // ---------------------------------------------------------------------

  function FullInitial(capacity: nat): Full {
    Full(Py.PYTHON_INITIAL, Stack.Stack.Stack(ClientWorld.SYSTEM_INITIAL, Native.Initial(capacity)))
  }

  lemma FullStarts(cfg: Config, capacity: nat)
    requires 0 < capacity
    ensures FullInv(cfg, FullInitial(capacity))
  {
    Stack.StackStarts(cfg, capacity);
    JointStarts(capacity);
  }

  ghost predicate FullReaches(cfg: Config, capacity: nat, moves: seq<FullMove>, f: Full) {
    if moves == [] then f == FullInitial(capacity)
    else
      var m := moves[|moves| - 1];
      exists g :: FullReaches(cfg, capacity, moves[..|moves| - 1], g) && FullLeads(cfg, g, m, f)
  }

  /** The state is one that the Python machine reaches. */
  ghost predicate IsPythonRun(p: Py.Python) {
    exists moves :: Runs.PythonReaches(moves, p)
  }

  lemma PythonGoesOn(p: Py.Python, t: Tid, a: Py.PyAction)
    requires IsPythonRun(p) && Py.PyCan(p, t, a)
    ensures IsPythonRun(Py.PyDo(p, t, a))
  {
    var moves :| Runs.PythonReaches(moves, p);
    Runs.OneMoreMove(moves, p, t, a);
  }

  lemma ProjectionGoesOn(p: Py.Python, p': Py.Python)
    requires IsPythonRun(p) && Projects(p, p')
    ensures IsPythonRun(p')
  {
    if p' != p {
      PythonGoesOn(p, p.lock.value.tid, Py.Start(Py.NativeEvolves(p'.native)));
    }
  }

  lemma FullKept(cfg: Config, g: Full, m: FullMove, f: Full)
    requires ValidConfig(cfg) && FullInv(cfg, g) && IsPythonRun(g.p) && FullLeads(cfg, g, m, f)
    ensures FullInv(cfg, f) && IsPythonRun(f.p)
  {
    match m
    case User(t, a) =>
      UserKeepsFull(cfg, g, t, a, f);
      PythonGoesOn(g.p, t, a);
    case Layers(t, b) =>
      LayersKeepFull(cfg, g, t, b, f);
      ProjectionGoesOn(g.p, f.p);
  }

  /** Every run of the three layers keeps the whole invariant, and to Python it is a
      run of the Python machine. */
  lemma {:induction false} EveryFullState(cfg: Config, capacity: nat, moves: seq<FullMove>, f: Full)
    requires ValidConfig(cfg) && 0 < capacity && FullReaches(cfg, capacity, moves, f)
    ensures FullInv(cfg, f) && IsPythonRun(f.p)
  {
    if moves == [] {
      FullStarts(cfg, capacity);
      assert Runs.PythonReaches([], f.p);
    } else {
      var m := moves[|moves| - 1];
      var g :| FullReaches(cfg, capacity, moves[..|moves| - 1], g) && FullLeads(cfg, g, m, f);
      EveryFullState(cfg, capacity, moves[..|moves| - 1], g);
      FullKept(cfg, g, m, f);
    }
  }

  /** The output is a sample of the core client, pushed by the worker of the native
      run that the start of its token opened. */
  ghost predicate ComesFromItsRun(f: Full, o: Py.Out) {
    var handed, born := f.s.client.world.h.handed, f.s.native.log.born;
    && 0 < o.token <= |f.p.begun| && o.item.run == f.p.begun[o.token - 1] && 0 < o.item.run <= |born|
    && o.item in f.s.native.log.taken
    && 0 < o.item.place <= |handed| && handed[o.item.place - 1].sample == o.item.sample
  }

  lemma OutputComesFromItsRun(cfg: Config, f: Full, i: nat)
    requires Stack.ItemsAreHanded(f.s.native.log.taken + f.s.native.queue.samples, f.s.client.world.h.handed)
    requires Runs.PythonInv(f.p) && f.p.native == ViewOf(f.s.native) && ItemsIn(f.p, f.s.native.log.taken)
    requires i < |f.p.out|
    ensures ComesFromItsRun(f, f.p.out[i])
  {
    var o, taken := f.p.out[i], f.s.native.log.taken;
    assert Runs.Belongs(f.p, o.token, o.item);
    assert o.item in taken;
    var k :| 0 <= k < |taken| && taken[k] == o.item;
    assert (taken + f.s.native.queue.samples)[k] == o.item;
  }

  /** Isolation across the layers: under any interleaving of threads in Python, in
      the native client and in the core, what an iterator yields under a token, or a
      dispatcher passes to its callback, was pushed by the native run that the
      token's start opened, and is a sample the core handed out; outputs of
      different tokens come from different native runs. */
  lemma IsolationAcrossLayers(cfg: Config, capacity: nat, moves: seq<FullMove>, f: Full, i: nat, k: nat)
    requires ValidConfig(cfg) && 0 < capacity && FullReaches(cfg, capacity, moves, f)
    requires i < |f.p.out| && k < |f.p.out|
    ensures ComesFromItsRun(f, f.p.out[i])
    ensures f.p.out[i].token != f.p.out[k].token ==> f.p.out[i].item.run != f.p.out[k].item.run
  {
    EveryFullState(cfg, capacity, moves, f);
    OutputComesFromItsRun(cfg, f, i);
    var pythonMoves :| Runs.PythonReaches(pythonMoves, f.p);
    Runs.RunIsolation(pythonMoves, f.p, i, k);
  }

  lemma NoWorkerMet(p: Py.Python, n: Native.Native)
    requires Native.NativeInv(n) && LifeMatch(p.lock, n)
    requires n.lock.Some? && n.lock.value.section.StartCore?
    ensures !n.core.live
  {
  }

  /** A Python start never meets a worker in the core's `start`, so through Python no
      `start` of the core goes to sleep waiting for one to exit: Python stops the
      native client before it starts it again. */
  lemma PythonStartsMeetNoWorker(cfg: Config, capacity: nat, moves: seq<FullMove>, f: Full, t: Tid)
    requires ValidConfig(cfg) && 0 < capacity && FullReaches(cfg, capacity, moves, f)
    requires Native.Holds(f.s.native, t, Native.StartCore)
    ensures !ClientRuns.HasWorker(f.s.client.core)
    ensures !Lifecycle.StartCan(f.s.client.core, t, Lifecycle.StartDozes)
  {
    EveryFullState(cfg, capacity, moves, f);
    NoWorkerMet(f.p, f.s.native);
    SleepsBesideWorkers(f.s.client.core, t);
  }

  lemma SleepsBesideWorkers(s: Lifecycle.Core, t: Tid)
    requires ClientControl.ControlInv(s) && !ClientRuns.HasWorker(s)
    ensures !Lifecycle.StartCan(s, t, Lifecycle.StartDozes)
  {
    if Lifecycle.StartCan(s, t, Lifecycle.StartDozes) {
      ClientControl.DozesBesideAWorker(s, t);
    }
  }
}
