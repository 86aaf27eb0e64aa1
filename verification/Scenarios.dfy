/**
 Means of building a particular run: a set of states closed under moves, and one
 step of it for each kind of action.
 */
module Scenarios {
  import opened ClientData
  import opened StreamHistory
  import opened ClientLifecycle
  import opened ClientWorld
  import opened ClientSystem

  const CALIBRATION := Calibration(1.0, 1.0, Newton, NewtonMeter)
  const CHOICE := Choice(SensorConfiguration("", CALIBRATION, FromOverride, 1), "")

  /** The set of states holds the initial one and whatever a move leads to. */
  ghost predicate Closed(cfg: Config, ys: iset<System>) {
    SYSTEM_INITIAL in ys && forall y, m, y' :: y in ys && Leads(cfg, y, m, y') ==> y' in ys
  }

  lemma Starts(cfg: Config, ys: iset<System>, y: System, t: Tid, a: StartAction) returns (y': System)
    requires Closed(cfg, ys) && y in ys && StartCan(y.core, t, a)
    ensures y' in ys && y'.core == StartDo(cfg, y.core, t, a)
    ensures y'.world == Perform(cfg, y.world, StartEffect(a)) && y'.kept == Keep(y.kept, y.world, a)
  {
    y' := StartStep(cfg, y, t, a);
    assert Leads(cfg, y, Move.Move(t, Start(a), CHOICE), y');
  }

  lemma Undoes(cfg: Config, ys: iset<System>, y: System, t: Tid, a: UndoAction) returns (y': System)
    requires Closed(cfg, ys) && y in ys && UndoCan(y.core, t, a)
    ensures y' in ys && y'.core == UndoDo(y.core, t, a) && y'.kept == y.kept
    ensures y'.world == Perform(cfg, y.world, UndoEffect(y.core.lock.value.section.saved, y.kept, a))
  {
    y' := UndoStep(cfg, y, t, a);
    assert Leads(cfg, y, Move.Move(t, Undo(a), CHOICE), y');
  }

  lemma Asks(cfg: Config, ys: iset<System>, y: System, t: Tid, a: QueryAction) returns (y': System)
    requires Closed(cfg, ys) && y in ys && QueryCan(y.core, t, a) && (a.CallsWait? || a.WaitCaptures?)
    ensures y' in ys && y'.core == QueryDo(y.core, t, a) && y'.world == y.world && y'.kept == y.kept
  {
    y' := QueryStep(cfg, y, t, a);
    assert Leads(cfg, y, Move.Move(t, Query(a), CHOICE), y');
  }

  lemma Works(cfg: Config, ys: iset<System>, y: System, t: Tid, a: WorkAction) returns (y': System)
    requires Closed(cfg, ys) && y in ys && WorkerCan(y.core, t, a)
    requires WorkFits(cfg, y.world, WorkerOf(y.core, t).at, a, CHOICE)
    ensures y' in ys && y'.core == WorkerDo(cfg, y.core, t, a)
    ensures
      var e := WorkEffect(cfg, y.core.shared, y.core.stopping, WorkerOf(y.core, t).at, a, CHOICE);
      y'.world == Perform(cfg, y.world, e)
  {
    y' := WorkStep(cfg, y, t, a, CHOICE);
    assert Leads(cfg, y, Move.Move(t, Work(a), CHOICE), y');
  }

  ghost predicate Possible(cfg: Config, y: System) {
    exists moves :: Reaches(cfg, moves, y)
  }

  /** Everything a client can reach. */
  lemma ReachableSet(cfg: Config) returns (ys: iset<System>)
    ensures Closed(cfg, ys) && forall y :: y in ys ==> Possible(cfg, y)
  {
    ys := iset y | Possible(cfg, y);
    assert Reaches(cfg, [], SYSTEM_INITIAL);
    forall y, m, y' | y in ys && Leads(cfg, y, m, y') ensures y' in ys {
      var moves :| Reaches(cfg, moves, y);
      OneMoreMove(cfg, moves, y, m, y');
    }
  }
}
