/**
 The flags of a `start` under way: outside the steps that run on the new flags, the
 old ones stand, so that a rollback finds them.
 */
module ClientFlags {
  import opened ClientData
  import opened ClientLifecycle
  import opened ClientControl

  /** Outside the phases that run on the new flags, the old ones stand. */
  predicate FlagsOk(s: Core) {
    IsOpening(s) && !FlagsAhead(s) ==>
      var saved := s.lock.value.section.saved;
      s.stopping == saved.stopping && s.shared.exited == saved.exited && s.callback == saved.callback
  }

  lemma StartKeepsFlags(cfg: Config, s: Core, t: Tid, a: StartAction)
    requires ControlInv(s) && FlagsOk(s) && StartCan(s, t, a)
    ensures FlagsOk(StartDo(cfg, s, t, a))
  {
  }

  lemma UndoKeepsFlags(s: Core, t: Tid, a: UndoAction)
    requires ControlInv(s) && FlagsOk(s) && UndoCan(s, t, a)
    ensures FlagsOk(UndoDo(s, t, a))
  {
  }

  lemma StopKeepsFlags(s: Core, t: Tid, a: StopAction)
    requires ControlInv(s) && FlagsOk(s) && StopCan(s, t, a)
    ensures FlagsOk(StopDo(s, t, a))
  {
  }

  lemma FlagsKept(cfg: Config, s: Core, t: Tid, a: Action)
    requires ControlInv(s) && FlagsOk(s) && Can(s, t, a)
    ensures FlagsOk(Do(cfg, s, t, a))
  {
    match a
    case Work(x) => assert WorkerOf(s, t).Alive?;
    case Start(x) => StartKeepsFlags(cfg, s, t, x);
    case Undo(x) => UndoKeepsFlags(s, t, x);
    case Stop(x) => StopKeepsFlags(s, t, x);
    case Query(x) =>
  }
}
