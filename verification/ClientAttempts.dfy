/**
 What `wait_for_first_sample` may conclude from `generation_`.

 Every `start` that reaches its data section is an attempt and takes a number.  An
 attempt whose thread cannot be created is undone and gives its number back, so a
 later attempt may take it again.
 */
module ClientAttempts {
  import opened ClientData
  import opened ClientLifecycle
  import opened ClientControl

  predicate Undoing(a: Attempt) {
    a.fate == Undone
  }

  /** `generation_` and `delivered_generation_` tell of the attempt `current`; the
      later attempts were undone, the earlier ones that stand have smaller numbers,
      and an undone attempt delivered nothing. */
  ghost predicate Numbered(attempts: seq<Attempt>, fate: Fate, generation: nat, delivered: nat, current: nat) {
    && current <= |attempts| && (current == 0 <==> generation == 0)
    && (delivered == 0 || delivered == generation)
    && (current > 0 ==>
          && attempts[current - 1].generation == generation && attempts[current - 1].fate == fate
          && (attempts[current - 1].delivered <==> delivered == generation))
    && (forall i {:trigger attempts[i]} :: current <= i < |attempts| ==> Undoing(attempts[i]))
    && (forall i {:trigger attempts[i]} :: 0 <= i < current - 1 ==>
          Undoing(attempts[i]) || attempts[i].generation < generation)
    && (forall i {:trigger attempts[i]} :: 0 <= i < |attempts| && Undoing(attempts[i]) ==> !attempts[i].delivered)
  }

  /** Between the data section of `start` and that of its rollback. */
  predicate InAttempt(phase: OpenPhase) {
    !phase.ToForget? && !phase.ToOpen? && !phase.ToUndoLatch? && !phase.ToUndoPublish?
  }

  /** The fate of the attempt that `generation_` tells of. */
  function FateNow(s: Core): Fate {
    if IsOpening(s) && InAttempt(s.lock.value.section.phase) then Undecided else Committed
  }

  /** While an attempt is under way: what it would put back. */
  ghost predicate CanPutBack(d: Shared, phase: OpenPhase, saved: Saved) {
    if InAttempt(phase) then
      && d.current == |d.attempts| > 0 && d.delivered == 0
      && Numbered(d.attempts[..|d.attempts| - 1], Committed, saved.generation, saved.delivered, saved.current)
    else if phase.ToForget? || phase.ToOpen? then
      saved.generation == d.generation && saved.delivered == d.delivered && saved.current == d.current
    else true
  }

  /** A capture made while no `start` was halfway is of an attempt that stands. */
  ghost predicate CaptureOk(d: Shared, c: Call) {
    c.Waiting? ==>
      && 0 < c.attempt <= |d.attempts| && 0 < c.generation == d.attempts[c.attempt - 1].generation
      && (c.settled ==> d.attempts[c.attempt - 1].fate == Committed)
  }

  ghost predicate NumbersInv(s: Core) {
    && Numbered(s.shared.attempts, FateNow(s), s.shared.generation, s.shared.delivered, s.shared.current)
    && (IsOpening(s) ==> CanPutBack(s.shared, s.lock.value.section.phase, s.lock.value.section.saved))
  }

  ghost predicate AttemptInv(s: Core) {
    NumbersInv(s) && forall t {:trigger CallOf(s, t)} :: CaptureOk(s.shared, CallOf(s, t))
  }

  // ---------------------------------------------------------------------
  // Every step keeps it
  // ---------------------------------------------------------------------

  predicate SameNumbers(d: Shared, d': Shared) {
    d'.attempts == d.attempts && d'.generation == d.generation && d'.delivered == d.delivered && d'.current == d.current
  }

  lemma WorkKeepsNumbers(cfg: Config, d: Shared, stopping: bool, at: Point, a: WorkAction)
    requires WorkerAt(at, a) && !a.CompletesDelivery?
    ensures SameNumbers(d, NextShared(cfg, d, stopping, at, a))
  {
  }

  lemma DeliveryKeepsNumbers(attempts: seq<Attempt>, generation: nat, delivered: nat, current: nat)
    requires Numbered(attempts, Committed, generation, delivered, current)
    ensures
      current > 0 ==>
        Numbered(attempts[current - 1 := attempts[current - 1].(delivered := true)],
                 Committed, generation, generation, current)
    ensures current == 0 ==> Numbered(attempts, Committed, generation, generation, current)
  {
  }

  /** The attempts grew or changed in delivery or, while undecided, in fate. */
  predicate Outlast(before: seq<Attempt>, after: seq<Attempt>) {
    |before| <= |after| && forall i :: 0 <= i < |before| ==>
      after[i].generation == before[i].generation && (before[i].fate == Committed ==> after[i].fate == Committed)
  }

  lemma CapturesOutlast(s: Core, s': Core, t: Tid)
    requires AttemptInv(s) && Outlast(s.shared.attempts, s'.shared.attempts)
    requires forall x {:trigger CallOf(s', x)} :: x != t ==> CallOf(s', x) == CallOf(s, x)
    requires CaptureOk(s'.shared, CallOf(s', t))
    ensures forall x {:trigger CallOf(s', x)} :: CaptureOk(s'.shared, CallOf(s', x))
  {
    forall x {:trigger CallOf(s', x)} | x != t ensures CaptureOk(s'.shared, CallOf(s', x)) {
      assert CaptureOk(s.shared, CallOf(s, x));
    }
  }

  lemma OpenKeepsNumbers(d: Shared)
    requires Numbered(d.attempts, Committed, d.generation, d.delivered, d.current)
    ensures Numbered(d.attempts + [Attempt(d.generation + 1, Undecided, false)],
                     Undecided, d.generation + 1, 0, |d.attempts| + 1)
  {
  }

  predicate EarlyPhase(phase: OpenPhase) {
    phase.ToForget? || phase.ToOpen?
  }

  /** The holder goes on within the same part of its `start`, or begins one. */
  ghost predicate PhaseStays(s: Core, s': Core) {
    && SameNumbers(s.shared, s'.shared) && FateNow(s') == FateNow(s)
    && (IsOpening(s') ==>
          var section' := s'.lock.value.section;
          if IsOpening(s) then
            var section := s.lock.value.section;
            && section'.saved == section.saved && InAttempt(section'.phase) == InAttempt(section.phase)
            && (EarlyPhase(section'.phase) ==> EarlyPhase(section.phase))
          else section'.phase.ToForget? && section'.saved == Save(s))
  }

  lemma StayKeepsNumbers(s: Core, s': Core)
    requires NumbersInv(s) && PhaseStays(s, s')
    ensures NumbersInv(s') && Outlast(s.shared.attempts, s'.shared.attempts)
  {
  }

  lemma StartStays(cfg: Config, s: Core, t: Tid, a: StartAction)
    requires ControlInv(s) && StartCan(s, t, a) && !a.StartOpens? && !a.StartSpawns?
    ensures PhaseStays(s, StartDo(cfg, s, t, a))
  {
  }

  lemma SpawnKeepsNumbers(attempts: seq<Attempt>, generation: nat, delivered: nat)
    requires Numbered(attempts, Undecided, generation, delivered, |attempts|) && attempts != []
    ensures Numbered(SetFate(attempts, Committed), Committed, generation, delivered, |attempts|)
    ensures Outlast(attempts, SetFate(attempts, Committed))
  {
  }

  lemma StartOpensNumbers(cfg: Config, s: Core, t: Tid)
    requires NumbersInv(s) && StartCan(s, t, StartOpens)
    ensures
      var s' := StartDo(cfg, s, t, StartOpens);
      NumbersInv(s') && Outlast(s.shared.attempts, s'.shared.attempts)
  {
    var d := s.shared;
    OpenKeepsNumbers(d);
    var longer := d.attempts + [Attempt(d.generation + 1, Undecided, false)];
    assert longer[..|longer| - 1] == d.attempts;
  }

  lemma StartSpawnsNumbers(cfg: Config, s: Core, t: Tid, w: Tid)
    requires NumbersInv(s) && StartCan(s, t, StartSpawns(w))
    ensures
      var s' := StartDo(cfg, s, t, StartSpawns(w));
      NumbersInv(s') && Outlast(s.shared.attempts, s'.shared.attempts)
  {
    SpawnKeepsNumbers(s.shared.attempts, s.shared.generation, s.shared.delivered);
  }

  lemma StartKeepsNumbers(cfg: Config, s: Core, t: Tid, a: StartAction)
    requires ControlInv(s) && NumbersInv(s) && StartCan(s, t, a)
    ensures
      var s' := StartDo(cfg, s, t, a);
      NumbersInv(s') && Outlast(s.shared.attempts, s'.shared.attempts)
  {
    if a.StartOpens? {
      StartOpensNumbers(cfg, s, t);
    } else if a.StartSpawns? {
      StartSpawnsNumbers(cfg, s, t, a.w);
    } else {
      StartStays(cfg, s, t, a);
      StayKeepsNumbers(s, StartDo(cfg, s, t, a));
    }
  }

  lemma DeliveryNumbers(cfg: Config, s: Core, t: Tid)
    requires NumbersInv(s) && WorkerCan(s, t, CompletesDelivery) && !IsOpening(s)
    ensures
      var s' := WorkerDo(cfg, s, t, CompletesDelivery);
      NumbersInv(s') && Outlast(s.shared.attempts, s'.shared.attempts)
  {
    DeliveryKeepsNumbers(s.shared.attempts, s.shared.generation, s.shared.delivered, s.shared.current);
  }

  lemma WorkKeepsAttempts(cfg: Config, s: Core, t: Tid, a: WorkAction)
    requires ControlInv(s) && AttemptInv(s) && WorkerCan(s, t, a)
    ensures AttemptInv(WorkerDo(cfg, s, t, a))
  {
    var s' := WorkerDo(cfg, s, t, a);
    assert WorkerOf(s, t).Alive?;
    assert !IsOpening(s);
    assert forall x :: CallOf(s', x) == CallOf(s, x);
    assert CaptureOk(s.shared, CallOf(s, t));
    if a.CompletesDelivery? {
      DeliveryNumbers(cfg, s, t);
    } else {
      WorkKeepsNumbers(cfg, s.shared, s.stopping, WorkerOf(s, t).at, a);
      StayKeepsNumbers(s, s');
    }
    CapturesOutlast(s, s', t);
  }

  lemma StartKeepsAttempts(cfg: Config, s: Core, t: Tid, a: StartAction)
    requires ControlInv(s) && AttemptInv(s) && StartCan(s, t, a)
    ensures AttemptInv(StartDo(cfg, s, t, a))
  {
    StartKeepsNumbers(cfg, s, t, a);
    CapturesOutlast(s, StartDo(cfg, s, t, a), t);
  }

  lemma UndoKeepsNumbers(attempts: seq<Attempt>, saved: Saved)
    requires attempts != []
    requires Numbered(attempts[..|attempts| - 1], Committed, saved.generation, saved.delivered, saved.current)
    requires !attempts[|attempts| - 1].delivered
    ensures Numbered(SetFate(attempts, Undone), Committed, saved.generation, saved.delivered, saved.current)
  {
    assert forall i :: 0 <= i < |attempts| - 1 ==> attempts[i] == attempts[..|attempts| - 1][i];
  }

  lemma UndoStays(s: Core, t: Tid, a: UndoAction)
    requires UndoCan(s, t, a) && !a.UndoesData?
    ensures PhaseStays(s, UndoDo(s, t, a))
  {
  }

  lemma UndoDataNumbers(s: Core, t: Tid)
    requires NumbersInv(s) && UndoCan(s, t, UndoesData)
    ensures
      var s' := UndoDo(s, t, UndoesData);
      NumbersInv(s') && Outlast(s.shared.attempts, s'.shared.attempts)
  {
    UndoKeepsNumbers(s.shared.attempts, s.lock.value.section.saved);
  }

  lemma UndoKeepsAttempts(s: Core, t: Tid, a: UndoAction)
    requires ControlInv(s) && AttemptInv(s) && UndoCan(s, t, a)
    ensures AttemptInv(UndoDo(s, t, a))
  {
    if a.UndoesData? {
      UndoDataNumbers(s, t);
    } else {
      UndoStays(s, t, a);
      StayKeepsNumbers(s, UndoDo(s, t, a));
    }
    CapturesOutlast(s, UndoDo(s, t, a), t);
  }

  lemma StopKeepsNumbers(s: Core, t: Tid, a: StopAction)
    requires StopCan(s, t, a)
    ensures SameNumbers(s.shared, StopDo(s, t, a).shared)
    ensures CallOf(StopDo(s, t, a), t) == CallOf(s, t) || !CallOf(StopDo(s, t, a), t).Waiting?
    ensures IsOpening(StopDo(s, t, a)) ==> StopDo(s, t, a).lock == s.lock
  {
  }

  lemma StopKeepsAttempts(s: Core, t: Tid, a: StopAction)
    requires AttemptInv(s) && StopCan(s, t, a)
    ensures AttemptInv(StopDo(s, t, a))
  {
    StopKeepsNumbers(s, t, a);
    assert CaptureOk(s.shared, CallOf(s, t));
    CapturesOutlast(s, StopDo(s, t, a), t);
  }

  lemma QueryKeepsNumbers(s: Core, t: Tid, a: QueryAction)
    requires QueryCan(s, t, a)
    ensures SameNumbers(s.shared, QueryDo(s, t, a).shared) && QueryDo(s, t, a).lock == s.lock
    ensures
      var c := CallOf(QueryDo(s, t, a), t);
      c == CallOf(s, t) || !c.Waiting? ||
      (s.shared.generation != 0 && c == Waiting(s.shared.generation, s.shared.current, !MidStart(s)))
  {
  }

  lemma QueryKeepsAttempts(s: Core, t: Tid, a: QueryAction)
    requires AttemptInv(s) && QueryCan(s, t, a)
    ensures AttemptInv(QueryDo(s, t, a))
  {
    QueryKeepsNumbers(s, t, a);
    assert CaptureOk(s.shared, CallOf(s, t));
    CapturesOutlast(s, QueryDo(s, t, a), t);
  }

  lemma AttemptStarts()
    ensures AttemptInv(CORE_INITIAL)
  {
  }

  lemma AttemptKept(cfg: Config, s: Core, t: Tid, a: Action)
    requires ControlInv(s) && AttemptInv(s) && Can(s, t, a)
    ensures AttemptInv(Do(cfg, s, t, a))
  {
    match a
    case Work(x) => WorkKeepsAttempts(cfg, s, t, x);
    case Start(x) => StartKeepsAttempts(cfg, s, t, x);
    case Undo(x) => UndoKeepsAttempts(s, t, x);
    case Stop(x) => StopKeepsAttempts(s, t, x);
    case Query(x) => QueryKeepsAttempts(s, t, x);
  }

  // ---------------------------------------------------------------------
  // What a true answer means
  // ---------------------------------------------------------------------

  /** The attempt delivered a sample, and no later one stands. */
  ghost predicate DeliveredAndLatest(d: Shared, attempt: nat)
    requires 0 < attempt <= |d.attempts|
  {
    d.attempts[attempt - 1].delivered && forall i :: attempt <= i < |d.attempts| ==> Undoing(d.attempts[i])
  }

  /** A true answer of `wait_for_first_sample` is about the attempt it captured
      exactly when that attempt was not undone in the meantime; and it was not if
      no `start` was halfway when the generation was captured. */
  lemma TrueAnswer(s: Core, t: Tid)
    requires AttemptInv(s) && CallOf(s, t).Waiting? && WaitAnswer(s, t)
    ensures
      var c, d := CallOf(s, t), s.shared;
      && 0 < c.attempt <= |d.attempts|
      && (DeliveredAndLatest(d, c.attempt) <==> !Undoing(d.attempts[c.attempt - 1]))
      && (c.settled ==> DeliveredAndLatest(d, c.attempt))
  {
    var d, c := s.shared, CallOf(s, t);
    assert CaptureOk(d, c);
    if c.attempt < d.current {
      assert d.attempts[c.attempt - 1].generation == d.generation;
    } else if c.attempt > d.current {
      assert Undoing(d.attempts[c.attempt - 1]);
    }
  }

  /** If the attempt it captured has delivered and is the latest that stands, the answer
      is true. */
  lemma RightAnswer(s: Core, t: Tid)
    requires AttemptInv(s) && CallOf(s, t).Waiting? && 0 < CallOf(s, t).attempt <= |s.shared.attempts|
    requires DeliveredAndLatest(s.shared, CallOf(s, t).attempt)
    ensures WaitAnswer(s, t)
  {
    var d, c := s.shared, CallOf(s, t);
    assert CaptureOk(d, c);
    var mine := d.attempts[c.attempt - 1];
    assert !Undoing(mine) && d.current > 0;
    assert !Undoing(d.attempts[d.current - 1]);
    assert d.current == c.attempt;
  }

  /** With no attempt ever undone, a true answer is always right. */
  lemma TrueAnswerWithoutFailures(s: Core, t: Tid)
    requires AttemptInv(s) && CallOf(s, t).Waiting? && WaitAnswer(s, t)
    requires forall i :: 0 <= i < |s.shared.attempts| ==> !Undoing(s.shared.attempts[i])
    ensures CallOf(s, t).attempt == |s.shared.attempts| == s.shared.current
    ensures s.shared.attempts[s.shared.current - 1].delivered
  {
    TrueAnswer(s, t);
    assert !Undoing(s.shared.attempts[|s.shared.attempts| - 1]);
  }
}
