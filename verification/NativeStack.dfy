/**
 The native client on top of the core client: their joint steps, and the order in
 which readers see the samples of a client's whole life.
 */
module NativeStack {
  import Sequence
  import opened ClientData
  import opened ClientMoves
  import StreamHistory
  import Lifecycle = ClientLifecycle
  import Runs = ClientRuns
  import ClientWorld
  import opened ClientSystem
  import opened ClientFacade
  import opened NativeClient

  datatype Stack = Stack(client: ClientWorld.System, native: Native)

  /** A step of the core client, seen by the native client as a move; or a step of
      the native client alone. */
  datatype StackAction =
    | Below(a: Lifecycle.Action, c: ClientWorld.Choice)
    | Life(life: LifeAction)
    | Read(read: ReadAction)

  ghost predicate StackCan(cfg: Config, s: Stack, t: Tid, a: StackAction) {
    match a
    case Below(x, c) => ClientWorld.Enabled(cfg, s.client, t, x, c) && Admits(s.native, LabelOf(s.client, t, x))
    case Life(x) => LifeCan(s.native, t, x)
    case Read(x) => ReadCan(s.native, t, x)
  }

  ghost function StackDo(cfg: Config, s: Stack, t: Tid, a: StackAction): Stack
    requires StackCan(cfg, s, t, a)
  {
    match a
    case Below(x, c) =>
      var client := ClientWorld.Step(cfg, s.client, t, x, c);
      Stack(client, CoreDo(s.native, LabelOf(s.client, t, x), Abstract(client)))
    case Life(x) => s.(native := LifeDo(s.native, t, x))
    case Read(x) => s.(native := ReadDo(s.native, t, x))
  }

  /** Every queued or taken item is the sample handed out at its place. */
  ghost predicate ItemsAreHanded(items: seq<Item>, handed: seq<StreamHistory.Handed>) {
    forall i {:trigger items[i]} :: 0 <= i < |items| ==>
      0 < items[i].place <= |handed| && handed[items[i].place - 1].sample == items[i].sample
  }

  ghost predicate StackInv(cfg: Config, s: Stack) {
    && SystemInv(cfg, s.client) && NativeInv(s.native)
    && s.native.core == Abstract(s.client)
    && ItemsAreHanded(s.native.log.taken + s.native.queue.samples, s.client.world.h.handed)
  }

  // ---------------------------------------------------------------------
  // What was handed out stays handed out
  // ---------------------------------------------------------------------

  predicate Extends<T(==)>(xs: seq<T>, ys: seq<T>) {
    |xs| <= |ys| && xs == ys[..|xs|]
  }

  lemma HandedGrows(cfg: Config, w: StreamHistory.World, e: StreamHistory.Event)
    ensures Extends(w.h.handed, StreamHistory.Next(cfg, w, e).h.handed)
  {
  }

  lemma PerformGrows(cfg: Config, w: StreamHistory.World, e: ClientWorld.Effect)
    ensures Extends(w.h.handed, ClientWorld.Perform(cfg, w, e).h.handed)
  {
    match e
    case Nothing =>
    case One(e) => HandedGrows(cfg, w, e);
    case Two(e, f) =>
      HandedGrows(cfg, w, e);
      HandedGrows(cfg, StreamHistory.Next(cfg, w, e), f);
  }

  lemma StepGrows(cfg: Config, y: ClientWorld.System, t: Tid, a: Lifecycle.Action, c: ClientWorld.Choice)
    requires Lifecycle.Can(y.core, t, a)
    ensures Extends(y.world.h.handed, ClientWorld.Step(cfg, y, t, a, c).world.h.handed)
  {
    match a
    case Work(x) =>
      var at := Lifecycle.WorkerOf(y.core, t).at;
      PerformGrows(cfg, y.world, ClientWorld.WorkEffect(cfg, y.core.shared, y.core.stopping, at, x, c));
    case Start(x) => PerformGrows(cfg, y.world, ClientWorld.StartEffect(x));
    case Undo(x) => PerformGrows(cfg, y.world, ClientWorld.UndoEffect(y.core.lock.value.section.saved, y.kept, x));
    case Stop(x) => PerformGrows(cfg, y.world, ClientWorld.StopEffect(y.core.shared, x));
    case Query(x) => PerformGrows(cfg, y.world, ClientWorld.QueryEffect(y.core, x));
  }

  lemma ItemsStay(
    items: seq<Item>, more: seq<Item>, handed: seq<StreamHistory.Handed>, longer: seq<StreamHistory.Handed>)
    requires ItemsAreHanded(items, handed) && Extends(handed, longer)
    requires forall i {:trigger more[i]} :: 0 <= i < |more| ==> more[i] in items
    ensures ItemsAreHanded(more, longer)
  {
  }

  // ---------------------------------------------------------------------
  // Every step keeps it
  // ---------------------------------------------------------------------

  /** A step of the native client alone adds no item. */
  lemma LifeAddsNothing(n: Native, t: Tid, a: LifeAction)
    requires LifeCan(n, t, a)
    ensures
      var more := LifeDo(n, t, a).log.taken + LifeDo(n, t, a).queue.samples;
      forall i {:trigger more[i]} :: 0 <= i < |more| ==> more[i] in n.log.taken + n.queue.samples
    ensures LifeDo(n, t, a).core == n.core
  {
  }

  lemma ReadAddsNothing(n: Native, t: Tid, a: ReadAction)
    requires ReadCan(n, t, a)
    ensures ReadDo(n, t, a).log.taken + ReadDo(n, t, a).queue.samples == n.log.taken + n.queue.samples
    ensures ReadDo(n, t, a).core == n.core
  {
  }

  lemma MoveAddsTaken(n: Native, l: Label, core: Facade)
    requires Admits(n, l)
    ensures CoreDo(n, l, core).core == core && CoreDo(n, l, core).log.taken == n.log.taken
    ensures !l.Takes? ==> CoreDo(n, l, core).queue == n.queue
    ensures l.Takes? ==>
              CoreDo(n, l, core).queue == Queues.Push(n.queue, Item(l.sample, l.place, |n.log.born|))
  {
  }

  lemma PushedAreHanded(taken: seq<Item>, queue: Queue, x: Item, handed: seq<StreamHistory.Handed>)
    requires ItemsAreHanded(taken + queue.samples, handed)
    requires 0 < x.place <= |handed| && handed[x.place - 1].sample == x.sample
    ensures ItemsAreHanded(taken + Queues.Push(queue, x).samples, handed)
  {
    var before, after := taken + queue.samples, taken + Queues.Push(queue, x).samples;
    var dropped := |before| + 1 - |after|;
    assert forall i {:trigger after[i]} :: 0 <= i < |after| - 1 ==>
      after[i] == before[if i < |taken| then i else i + dropped];
    assert after[|after| - 1] == x;
  }

  lemma TakesAreHanded(cfg: Config, y: ClientWorld.System, t: Tid, a: Lifecycle.Action)
    requires SystemInv(cfg, y) && Lifecycle.Can(y.core, t, a) && LabelOf(y, t, a).Takes?
    ensures
      var l := LabelOf(y, t, a);
      0 < l.place <= |y.world.h.handed| && y.world.h.handed[l.place - 1].sample == l.sample
  {
    assert a == Lifecycle.Work(Lifecycle.CallbackReturns);
    TakenIsHanded(cfg, y, t);
  }

  lemma MoveKeepsItems(
    n: Native, l: Label, core: Facade, handed: seq<StreamHistory.Handed>, longer: seq<StreamHistory.Handed>)
    requires Admits(n, l) && ItemsAreHanded(n.log.taken + n.queue.samples, handed) && Extends(handed, longer)
    requires l.Takes? ==> 0 < l.place <= |handed| && handed[l.place - 1].sample == l.sample
    ensures
      var n' := CoreDo(n, l, core);
      ItemsAreHanded(n'.log.taken + n'.queue.samples, longer)
  {
    MoveAddsTaken(n, l, core);
    ItemsStay(n.log.taken + n.queue.samples, n.log.taken + n.queue.samples, handed, longer);
    if l.Takes? {
      PushedAreHanded(n.log.taken, n.queue, Item(l.sample, l.place, |n.log.born|), longer);
    }
  }

  lemma BelowKeepsStack(cfg: Config, s: Stack, t: Tid, a: Lifecycle.Action, c: ClientWorld.Choice)
    requires ValidConfig(cfg) && StackInv(cfg, s) && StackCan(cfg, s, t, Below(a, c))
    ensures StackInv(cfg, StackDo(cfg, s, t, Below(a, c)))
  {
    var y, l := s.client, LabelOf(s.client, t, a);
    var y' := ClientWorld.Step(cfg, y, t, a, c);
    SystemKept(cfg, y, t, a, c);
    EveryStepIsAMove(cfg, y, t, a, c);
    MoveKeepsNative(s.native, l, Abstract(y'));
    StepGrows(cfg, y, t, a, c);
    if l.Takes? {
      TakesAreHanded(cfg, y, t, a);
    }
    MoveKeepsItems(s.native, l, Abstract(y'), y.world.h.handed, y'.world.h.handed);
    MoveAddsTaken(s.native, l, Abstract(y'));
  }

  ghost predicate Items(n: Native, handed: seq<StreamHistory.Handed>) {
    ItemsAreHanded(n.log.taken + n.queue.samples, handed)
  }

  lemma LifeKeepsItems(n: Native, t: Tid, a: LifeAction, handed: seq<StreamHistory.Handed>)
    requires NativeInv(n) && LifeCan(n, t, a) && Items(n, handed)
    ensures NativeInv(LifeDo(n, t, a)) && Items(LifeDo(n, t, a), handed) && LifeDo(n, t, a).core == n.core
  {
    LifeKeepsNative(n, t, a);
    LifeAddsNothing(n, t, a);
    ItemsStay(n.log.taken + n.queue.samples, LifeDo(n, t, a).log.taken + LifeDo(n, t, a).queue.samples, handed, handed);
  }

  lemma ReadKeepsItems(n: Native, t: Tid, a: ReadAction, handed: seq<StreamHistory.Handed>)
    requires NativeInv(n) && ReadCan(n, t, a) && Items(n, handed)
    ensures NativeInv(ReadDo(n, t, a)) && Items(ReadDo(n, t, a), handed) && ReadDo(n, t, a).core == n.core
  {
    NativeKept(n, t, NativeAction.Read(a));
    ReadAddsNothing(n, t, a);
  }

  lemma AboveKeepsStack(cfg: Config, s: Stack, t: Tid, a: StackAction)
    requires StackInv(cfg, s) && StackCan(cfg, s, t, a) && !a.Below?
    ensures StackInv(cfg, StackDo(cfg, s, t, a))
  {
    var handed := s.client.world.h.handed;
    assert Items(s.native, handed);
    match a
    case Life(x) => LifeKeepsItems(s.native, t, x, handed);
    case Read(x) => ReadKeepsItems(s.native, t, x, handed);
  }

  lemma StackStarts(cfg: Config, capacity: nat)
    requires 0 < capacity
    ensures StackInv(cfg, Stack(ClientWorld.SYSTEM_INITIAL, Initial(capacity)))
  {
    SystemStarts(cfg);
    NativeStarts(capacity);
  }

  lemma StackKept(cfg: Config, s: Stack, t: Tid, a: StackAction)
    requires ValidConfig(cfg) && StackInv(cfg, s) && StackCan(cfg, s, t, a)
    ensures StackInv(cfg, StackDo(cfg, s, t, a))
  {
    if a.Below? {
      BelowKeepsStack(cfg, s, t, a.a, a.c);
    } else {
      AboveKeepsStack(cfg, s, t, a);
    }
  }

  datatype StackMove = StackMove(t: Tid, a: StackAction)

  ghost predicate StackLeads(cfg: Config, s: Stack, m: StackMove, s': Stack) {
    StackCan(cfg, s, m.t, m.a) && s' == StackDo(cfg, s, m.t, m.a)
  }

  ghost predicate StackReaches(cfg: Config, capacity: nat, moves: seq<StackMove>, s: Stack) {
    if moves == [] then s == Stack(ClientWorld.SYSTEM_INITIAL, Initial(capacity))
    else
      var m := moves[|moves| - 1];
      exists p :: StackReaches(cfg, capacity, moves[..|moves| - 1], p) && StackLeads(cfg, p, m, s)
  }

  lemma {:induction false} EveryStackState(cfg: Config, capacity: nat, moves: seq<StackMove>, s: Stack)
    requires ValidConfig(cfg) && 0 < capacity && StackReaches(cfg, capacity, moves, s)
    ensures StackInv(cfg, s)
  {
    if moves == [] {
      StackStarts(cfg, capacity);
    } else {
      var m := moves[|moves| - 1];
      var p :| StackReaches(cfg, capacity, moves[..|moves| - 1], p) && StackLeads(cfg, p, m, s);
      EveryStackState(cfg, capacity, moves[..|moves| - 1], p);
      StackKept(cfg, p, m.t, m.a);
    }
  }

  lemma AscendingItems(
    taken: seq<Item>, samples: seq<Item>, bound: nat, handed: seq<StreamHistory.Handed>, i: nat, j: nat)
    requires Ascending(taken + samples, bound) && ItemsAreHanded(taken + samples, handed) && i < j < |taken|
    ensures 0 < taken[i].place < taken[j].place <= |handed|
    ensures handed[taken[i].place - 1].sample == taken[i].sample && handed[taken[j].place - 1].sample == taken[j].sample
  {
    var items := taken + samples;
    assert items[i] == taken[i] && items[j] == taken[j];
  }

  /** The i-th and the j-th sample taken are samples handed out, the i-th at an
      earlier position of the sensor's life. */
  ghost predicate TakenBefore(s: Stack, i: nat, j: nat)
    requires i < |s.native.log.taken| && j < |s.native.log.taken|
  {
    var handed, a, b := s.client.world.h.handed, s.native.log.taken[i], s.native.log.taken[j];
    && 0 < a.place < b.place <= |handed|
    && handed[a.place - 1].sample == a.sample && handed[b.place - 1].sample == b.sample
    && Sequence.Before(handed[a.place - 1].position, handed[b.place - 1].position)
  }

  lemma OrderOfTaken(s: Stack, i: nat, j: nat)
    requires NativeInv(s.native) && ItemsAreHanded(s.native.log.taken + s.native.queue.samples, s.client.world.h.handed)
    requires StreamHistory.InOrder(s.client.world.h.handed) && i < j < |s.native.log.taken|
    ensures TakenBefore(s, i, j)
  {
    AscendingItems(s.native.log.taken, s.native.queue.samples, s.native.core.place, s.client.world.h.handed, i, j);
  }

  /** Readers, however many and over however many runs, obtain samples at strictly
      increasing positions of the sensor's life: in order and none twice. */
  lemma ReadersSeeOrder(cfg: Config, capacity: nat, moves: seq<StackMove>, s: Stack, i: nat, j: nat)
    requires ValidConfig(cfg) && 0 < capacity && StackReaches(cfg, capacity, moves, s)
    requires i < j < |s.native.log.taken|
    ensures TakenBefore(s, i, j)
  {
    EveryStackState(cfg, capacity, moves, s);
    OrderOfTaken(s, i, j);
  }
}
