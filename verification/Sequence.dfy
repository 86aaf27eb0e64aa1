/**
 The two sequence trackers of the RDT stream.

 Both compare 32-bit counters by serial-number arithmetic: a distance below
 2^31 is ahead, a distance of 2^31 or more is behind.  The RDT tracker is
 measured against a tracker over unbounded integers, the F/T tracker against a
 description of whole traces.
 */
module Sequence {

  const MODULUS := 0x1_0000_0000
  const HALF := 0x8000_0000
  const RESTART_LOW_MAX := 0xffff
  const RESTART_MIN_BASELINE := RESTART_LOW_MAX + 1

  type uint32 = x: int | 0 <= x < MODULUS

  /** Unsigned 32-bit subtraction. */
  function Delta(current: uint32, previous: uint32): uint32 {
    (current - previous) % MODULUS
  }

  function Wrap(x: int): uint32 {
    x % MODULUS
  }

  // ---------------------------------------------------------------------
  // The RDT tracker
  // ---------------------------------------------------------------------

  datatype SequenceKind = First | Contiguous | Gap | Duplicate | OutOfOrder

  datatype Observation = Observation(kind: SequenceKind, gap: nat)

  datatype RdtState = RdtState(hasLast: bool, previous: uint32)

  const RDT_INITIAL := RdtState(false, 0)

  function RdtObserve(s: RdtState, current: uint32): (RdtState, Observation) {
    if !s.hasLast then (RdtState(true, current), Observation(First, 0))
    else
      var delta := Delta(current, s.previous);
      if delta == 0 then (s, Observation(Duplicate, 0))
      else if delta < HALF then
        (RdtState(true, current), if delta == 1 then Observation(Contiguous, 0) else Observation(Gap, delta - 1))
      else (s, Observation(OutOfOrder, 0))
  }

  function RdtReset(s: RdtState): RdtState {
    s.(hasLast := false)
  }

  class RdtSequenceTracker {
    var hasLast: bool
    var previous: uint32

    function State(): RdtState
      reads this
    {
      RdtState(hasLast, previous)
    }

    constructor ()
      ensures State() == RDT_INITIAL
    {
      hasLast, previous := false, 0;
    }

    method Observe(current: uint32) returns (o: Observation)
      modifies this
      ensures (State(), o) == RdtObserve(old(State()), current)
    {
      if !hasLast {
        hasLast := true;
        previous := current;
        return Observation(First, 0);
      }
      var delta := Delta(current, previous);
      if delta == 0 {
        return Observation(Duplicate, 0);
      }
      if delta < HALF {
        previous := current;
        return if delta == 1 then Observation(Contiguous, 0) else Observation(Gap, delta - 1);
      }
      return Observation(OutOfOrder, 0);
    }

    method Reset()
      modifies this
      ensures State() == RdtReset(old(State()))
    {
      hasLast := false;
    }
  }

  /** The specification: a tracker over the true, unbounded sequence numbers. */
  datatype TrueState = Empty | Max(first: int, max: int)

  function TrueObserve(s: TrueState, x: int): (TrueState, Observation) {
    match s
    case Empty => (Max(x, x), Observation(First, 0))
    case Max(first, max) =>
      if x == max then (s, Observation(Duplicate, 0))
      else if x < max then (s, Observation(OutOfOrder, 0))
      else (Max(first, x), if x == max + 1 then Observation(Contiguous, 0) else Observation(Gap, x - max - 1))
  }

  /** What happens to the RDT tracker: a record arrives, or a session or bias resets it. */
  datatype RdtEvent = Record(x: int) | Reset

  function Run32(s: RdtState, trace: seq<RdtEvent>): seq<Observation>
    decreases |trace|
  {
    if trace == [] then []
    else match trace[0]
      case Reset => Run32(RdtReset(s), trace[1..])
      case Record(x) =>
        var (s', o) := RdtObserve(s, Wrap(x));
        [o] + Run32(s', trace[1..])
  }

  function RunTrue(s: TrueState, trace: seq<RdtEvent>): seq<Observation>
    decreases |trace|
  {
    if trace == [] then []
    else match trace[0]
      case Reset => RunTrue(Empty, trace[1..])
      case Record(x) =>
        var (s', o) := TrueObserve(s, x);
        [o] + RunTrue(s', trace[1..])
  }

  /** The distance from the running maximum is one that 32 bits can tell apart. */
  predicate Readable(distance: int) {
    if distance >= 0 then distance < HALF else distance % MODULUS >= HALF
  }

  /** Every record of the trace is readable relative to the running maximum of its epoch. */
  predicate AllReadable(s: TrueState, trace: seq<RdtEvent>)
    decreases |trace|
  {
    trace == [] ||
    match trace[0]
    case Reset => AllReadable(Empty, trace[1..])
    case Record(x) => (s.Max? ==> Readable(x - s.max)) && AllReadable(TrueObserve(s, x).0, trace[1..])
  }

  predicate Tracks(s: RdtState, t: TrueState) {
    s.hasLast == t.Max? && (t.Max? ==> s.previous == Wrap(t.max))
  }

  lemma RdtStepAgrees(s: RdtState, t: TrueState, x: int)
    requires Tracks(s, t)
    ensures RdtObserve(s, Wrap(x)).1 == TrueObserve(t, x).1 <==> (t.Max? ==> Readable(x - t.max))
    ensures (t.Max? ==> Readable(x - t.max)) ==> Tracks(RdtObserve(s, Wrap(x)).0, TrueObserve(t, x).0)
  {
    if t.Max? {
      var d := x - t.max;
      assert Delta(Wrap(x), Wrap(t.max)) == d % MODULUS;
    }
  }

  /** Over every trace, the 32-bit tracker classifies exactly as the unbounded
      one if and only if every record is readable. */
  lemma {:induction false} RdtRefinesUnbounded(s: RdtState, t: TrueState, trace: seq<RdtEvent>)
    requires Tracks(s, t)
    ensures Run32(s, trace) == RunTrue(t, trace) <==> AllReadable(t, trace)
    decreases |trace|
  {
    if trace != [] {
      match trace[0]
      case Reset =>
        RdtRefinesUnbounded(RdtReset(s), Empty, trace[1..]);
      case Record(x) =>
        RdtStepAgrees(s, t, x);
        var (s', o) := RdtObserve(s, Wrap(x));
        var (t', p) := TrueObserve(t, x);
        assert Run32(s, trace)[0] == o && RunTrue(t, trace)[0] == p;
        assert Run32(s, trace)[1..] == Run32(s', trace[1..]);
        assert RunTrue(t, trace)[1..] == RunTrue(t', trace[1..]);
        if t.Max? ==> Readable(x - t.max) {
          RdtRefinesUnbounded(s', t', trace[1..]);
        }
      }
  }

  /** `lost_count`: the gaps reported over a trace. */
  function Lost(os: seq<Observation>): nat {
    if os == [] then 0 else os[0].gap + Lost(os[1..])
  }

  /** The integers of one epoch that were accepted as a new maximum. */
  function Accepted(t: TrueState, trace: seq<RdtEvent>): set<int>
    decreases |trace|
  {
    if trace == [] || trace[0].Reset? then {}
    else
      var t' := TrueObserve(t, trace[0].x).0;
      (if t == t' then {} else {t'.max}) + Accepted(t', trace[1..])
  }

  /** The maximum an epoch ends with. */
  function EpochMax(t: TrueState, trace: seq<RdtEvent>): (end: TrueState)
    ensures t.Max? ==> end.Max? && end.max >= t.max
    decreases |trace|
  {
    if trace == [] || trace[0].Reset? then t else EpochMax(TrueObserve(t, trace[0].x).0, trace[1..])
  }

  /** The events after the next reset. */
  function AfterEpoch(trace: seq<RdtEvent>): (rest: seq<RdtEvent>)
    ensures |rest| <= |trace|
    ensures trace != [] ==> |rest| < |trace|
  {
    if trace == [] then [] else if trace[0].Reset? then trace[1..] else AfterEpoch(trace[1..])
  }

  /** Integers above `low` up to `high`. */
  function Above(low: int, high: int): (r: set<int>)
    ensures forall i :: i in r <==> low < i <= high
    ensures low <= high ==> |r| == high - low
    decreases high - low
  {
    if low < high then Above(low, high - 1) + {high} else {}
  }

  /** The integers between the first and the largest record of each epoch that
      were never a new maximum, counted over all epochs. */
  function NeverSeen(trace: seq<RdtEvent>): nat
    decreases |trace|
  {
    if trace == [] then 0
    else if trace[0].Reset? then NeverSeen(trace[1..])
    else
      var first := trace[0].x;
      var end := EpochMax(Max(first, first), trace[1..]);
      (if end.Max? then |Above(first, end.max) - Accepted(Max(first, first), trace[1..])| else 0)
      + NeverSeen(AfterEpoch(trace[1..]))
  }

  lemma AcceptedAbove(t: TrueState, trace: seq<RdtEvent>)
    requires t.Max?
    ensures Accepted(t, trace) <= Above(t.max, EpochMax(t, trace).max)
    decreases |trace|
  {
    if trace != [] && trace[0].Record? {
      AcceptedAbove(TrueObserve(t, trace[0].x).0, trace[1..]);
    }
  }

  lemma MissingSize(low: int, high: int, accepted: set<int>)
    requires low <= high && accepted <= Above(low, high)
    ensures |Above(low, high) - accepted| == high - low - |accepted|
  {
    var all := Above(low, high);
    assert all == (all - accepted) + accepted;
    assert |all| == |all - accepted| + |accepted|;
  }

  /** Within one epoch the reported gaps are the integers passed over, and the
      rest of the trace is accounted on its own. */
  lemma {:induction false} EpochLoss(t: TrueState, trace: seq<RdtEvent>)
    requires t.Max?
    ensures Lost(RunTrue(t, trace))
         == |Above(t.max, EpochMax(t, trace).max) - Accepted(t, trace)| + NeverSeen(AfterEpoch(trace))
    decreases |trace|
  {
    if trace == [] {
      assert Above(t.max, t.max) == {};
    } else if trace[0].Reset? {
      assert Above(t.max, t.max) == {};
      LostIsNeverSeen(trace[1..]);
    } else {
      var (t', o) := TrueObserve(t, trace[0].x);
      EpochLoss(t', trace[1..]);
      AcceptedAbove(t, trace);
      AcceptedAbove(t', trace[1..]);
      assert RunTrue(t, trace)[1..] == RunTrue(t', trace[1..]);
      var end := EpochMax(t', trace[1..]).max;
      MissingSize(t.max, end, Accepted(t, trace));
      MissingSize(t'.max, end, Accepted(t', trace[1..]));
      assert t'.max !in Accepted(t', trace[1..]);
    }
  }

  /** Over every trace with any number of resets, the unbounded tracker's gaps
      sum to the number of integers never seen. */
  lemma {:induction false} LostIsNeverSeen(trace: seq<RdtEvent>)
    ensures Lost(RunTrue(Empty, trace)) == NeverSeen(trace)
    decreases |trace|
  {
    if trace != [] {
      if trace[0].Reset? {
        LostIsNeverSeen(trace[1..]);
      } else {
        var first := trace[0].x;
        assert RunTrue(Empty, trace)[1..] == RunTrue(Max(first, first), trace[1..]);
        AcceptedAbove(Max(first, first), trace[1..]);
        EpochLoss(Max(first, first), trace[1..]);
      }
    }
  }

  /** `lost_count` of the 32-bit tracker is the number of sequence numbers never
      seen, across wrap-arounds, sessions and biases. */
  lemma LostCountIsExact(s: RdtState, trace: seq<RdtEvent>)
    requires !s.hasLast && AllReadable(Empty, trace)
    ensures Lost(Run32(s, trace)) == NeverSeen(trace)
  {
    RdtRefinesUnbounded(s, Empty, trace);
    LostIsNeverSeen(trace);
  }

  // ---------------------------------------------------------------------
  // The F/T tracker
  // ---------------------------------------------------------------------

  datatype FtKind = FtFirst | Forward | Stall | Backward | Restart

  datatype FtState = FtState(hasLast: bool, previous: uint32, hasCandidate: bool, candidate: uint32)

  const FT_INITIAL := FtState(false, 0, false, 0)

  function FtObserve(s: FtState, current: uint32): (FtState, FtKind) {
    if !s.hasLast then (s.(hasLast := true, previous := current), FtFirst)
    else if current == s.previous then (s.(hasCandidate := false), Stall)
    else if Delta(current, s.previous) < HALF then (s.(previous := current, hasCandidate := false), Forward)
    else if && s.previous >= RESTART_MIN_BASELINE && s.hasCandidate
            && s.candidate <= RESTART_LOW_MAX && current <= RESTART_LOW_MAX
            && 0 < Delta(current, s.candidate) < HALF
         then (s.(previous := current, hasCandidate := false), Restart)
    else (s.(candidate := current, hasCandidate := true), Backward)
  }

  function FtBeginSession(s: FtState): FtState {
    s.(hasCandidate := false)
  }

  class FtSequenceTracker {
    var hasLast: bool
    var previous: uint32
    var hasCandidate: bool
    var candidate: uint32

    function State(): FtState
      reads this
    {
      FtState(hasLast, previous, hasCandidate, candidate)
    }

    constructor ()
      ensures State() == FT_INITIAL
    {
      hasLast, previous, hasCandidate, candidate := false, 0, false, 0;
    }

    method BeginSession()
      modifies this
      ensures State() == FtBeginSession(old(State()))
    {
      hasCandidate := false;
    }

    method Observe(current: uint32) returns (kind: FtKind)
      modifies this
      ensures (State(), kind) == FtObserve(old(State()), current)
    {
      if !hasLast {
        hasLast := true;
        previous := current;
        return FtFirst;
      }
      if current == previous {
        hasCandidate := false;
        return Stall;
      }
      var delta := Delta(current, previous);
      if delta < HALF {
        previous := current;
        hasCandidate := false;
        return Forward;
      }
      if previous >= RESTART_MIN_BASELINE && hasCandidate
         && candidate <= RESTART_LOW_MAX && current <= RESTART_LOW_MAX {
        var candidateDelta := Delta(current, candidate);
        if 0 < candidateDelta < HALF {
          previous := current;
          hasCandidate := false;
          return Restart;
        }
      }
      candidate := current;
      hasCandidate := true;
      return Backward;
    }
  }

  datatype FtEvent = FtSample(x: uint32) | BeginSession

  /** The tracker after a whole life of events. */
  function FtAfter(trace: seq<FtEvent>): FtState {
    if trace == [] then FT_INITIAL
    else
      var s := FtAfter(trace[..|trace| - 1]);
      match trace[|trace| - 1]
      case FtSample(x) => FtObserve(s, x).0
      case BeginSession => FtBeginSession(s)
  }

  /** How a sample that follows the trace is classified. */
  function KindAfter(trace: seq<FtEvent>, x: uint32): FtKind {
    FtObserve(FtAfter(trace), x).1
  }

  predicate Accepting(kind: FtKind) {
    kind.FtFirst? || kind.Forward? || kind.Restart?
  }

  /** The trace ends with a sample classified as `kind`. */
  predicate EndsWith(trace: seq<FtEvent>, kind: FtKind) {
    && trace != []
    && trace[|trace| - 1].FtSample?
    && KindAfter(trace[..|trace| - 1], trace[|trace| - 1].x) == kind
  }

  /** The last accepted sample of a trace, if any (-1 when none). */
  function Baseline(trace: seq<FtEvent>): int {
    if trace == [] then -1
    else
      var last := trace[|trace| - 1];
      if last.FtSample? && Accepting(KindAfter(trace[..|trace| - 1], last.x)) then last.x
      else Baseline(trace[..|trace| - 1])
  }

  /** The tracker's memory, read off the trace. */
  lemma {:induction false} FtMemory(trace: seq<FtEvent>)
    ensures FtAfter(trace).hasLast <==> Baseline(trace) >= 0
    ensures FtAfter(trace).hasLast ==> FtAfter(trace).previous == Baseline(trace)
    ensures FtAfter(trace).hasCandidate <==> EndsWith(trace, Backward)
    ensures EndsWith(trace, Backward) ==> FtAfter(trace).candidate == trace[|trace| - 1].x
    ensures FtAfter(trace).hasCandidate ==>
              FtAfter(trace).hasLast && Delta(FtAfter(trace).candidate, FtAfter(trace).previous) >= HALF
  {
    if trace != [] {
      FtMemory(trace[..|trace| - 1]);
    }
  }

  /** Over every trace of samples and session starts, a sample is a restart if
      and only if it rises, within the low range, above an immediately preceding
      backward sample while the baseline lies beyond the low range. */
  lemma RestartExactly(trace: seq<FtEvent>, x: uint32)
    ensures KindAfter(trace, x) == Restart <==>
              && EndsWith(trace, Backward)
              && Baseline(trace) >= RESTART_MIN_BASELINE
              && trace[|trace| - 1].x < x <= RESTART_LOW_MAX
  {
    FtMemory(trace);
  }

  function Kinds(s: FtState, xs: seq<uint32>): (kinds: seq<FtKind>)
    ensures |kinds| == |xs|
    decreases |xs|
  {
    if xs == [] then [] else [FtObserve(s, xs[0]).1] + Kinds(FtObserve(s, xs[0]).0, xs[1..])
  }

  ghost predicate Ascending(xs: seq<uint32>) {
    forall i, j :: 0 <= i < j < |xs| ==> xs[i] < xs[j]
  }

  lemma {:induction false} AscendingIsForward(s: FtState, xs: seq<uint32>)
    requires s.hasLast && Ascending(xs)
    requires forall i :: 0 <= i < |xs| ==> s.previous < xs[i] <= RESTART_LOW_MAX
    ensures forall i :: 0 <= i < |xs| ==> Kinds(s, xs)[i] == Forward
    decreases |xs|
  {
    if xs != [] {
      var s' := FtObserve(s, xs[0]).0;
      forall i | 0 <= i < |xs[1..]| ensures s'.previous < xs[1..][i] {
        assert xs[1..][i] == xs[i + 1];
      }
      AscendingIsForward(s', xs[1..]);
    }
  }

  lemma {:induction false} AfterBackward(s: FtState, xs: seq<uint32>)
    requires s.hasLast && s.previous >= RESTART_MIN_BASELINE
    requires xs != [] && Ascending(xs) && forall i :: 0 <= i < |xs| ==> xs[i] <= RESTART_LOW_MAX
    requires s.hasCandidate && s.candidate < xs[0] && s.previous - s.candidate <= HALF
    ensures Kinds(s, xs)[0] == Restart
    ensures forall i :: 1 <= i < |xs| ==> Kinds(s, xs)[i] == Forward
  {
    var rest := xs[1..];
    assert forall i :: 0 <= i < |rest| ==> rest[i] == xs[i + 1];
    AscendingIsForward(FtObserve(s, xs[0]).0, rest);
  }

  predicate RestartShape(kinds: seq<FtKind>) {
    && (|kinds| > 1 ==> kinds[1] == if kinds[0] == Backward then Restart else Forward)
    && forall i :: 2 <= i < |kinds| ==> kinds[i] == Forward
  }

  lemma {:induction false} RestartFrom(s: FtState, xs: seq<uint32>)
    requires s.hasLast && s.previous >= RESTART_MIN_BASELINE
    requires xs != [] && Ascending(xs) && forall i :: 0 <= i < |xs| ==> xs[i] <= RESTART_LOW_MAX
    ensures RestartShape(Kinds(s, xs))
    ensures Kinds(s, xs)[0] == FtObserve(s, xs[0]).1
    ensures FtObserve(s, xs[0]).1 == Forward <==> s.previous - xs[0] > HALF
    ensures FtObserve(s, xs[0]).1 in {Forward, Restart, Backward}
  {
    var s1 := FtObserve(s, xs[0]).0;
    var rest := xs[1..];
    assert forall i :: 0 <= i < |rest| ==> rest[i] == xs[i + 1];
    if FtObserve(s, xs[0]).1 != Backward {
      AscendingIsForward(s1, rest);
    } else if rest != [] {
      AfterBackward(s1, rest);
    }
  }

  /** A sensor that restarts and counts up from the low range, after any trace
      whose baseline lies beyond it, costs at most its first record: that one is
      forward, a restart, or backward by the distance to the baseline and the
      pending candidate; a backward first record makes the second a restart; all
      others are forward. */
  lemma {:induction false} RestartCost(trace: seq<FtEvent>, xs: seq<uint32>)
    requires Baseline(trace) >= RESTART_MIN_BASELINE
    requires xs != [] && Ascending(xs) && forall i :: 0 <= i < |xs| ==> xs[i] <= RESTART_LOW_MAX
    ensures RestartShape(Kinds(FtAfter(trace), xs))
    ensures Kinds(FtAfter(trace), xs)[0]
         == if Baseline(trace) - xs[0] > HALF then Forward
            else if EndsWith(trace, Backward) && trace[|trace| - 1].x < xs[0] then Restart
            else Backward
  {
    FtMemory(trace);
    RestartExactly(trace, xs[0]);
    RestartFrom(FtAfter(trace), xs);
  }

  /** Below the restart range nothing is ever recognised as a restart: a counter
      that starts over stays backward until it passes its old value. */
  lemma {:induction false} LowBaselineNeverRestarts(s: FtState, xs: seq<uint32>)
    requires s.hasLast && s.previous < RESTART_MIN_BASELINE
    requires forall i :: 0 <= i < |xs| ==> xs[i] < s.previous
    ensures forall i :: 0 <= i < |xs| ==> Kinds(s, xs)[i] == Backward
    decreases |xs|
  {
    if xs != [] {
      var s' := FtObserve(s, xs[0]).0;
      assert forall i :: 0 <= i < |xs[1..]| ==> xs[1..][i] == xs[i + 1];
      LowBaselineNeverRestarts(s', xs[1..]);
    }
  }

  /** Where a sample lies in the sensor's life: restarts seen so far, and the
      counter unwrapped within that restart. */
  datatype Position = Position(epoch: nat, place: int)

  predicate Before(p: Position, q: Position) {
    p.epoch < q.epoch || (p.epoch == q.epoch && p.place < q.place)
  }

  function Advance(s: FtState, p: Position, x: uint32): Position {
    match FtObserve(s, x).1
    case FtFirst => Position(0, x)
    case Forward => Position(p.epoch, p.place + Delta(x, s.previous))
    case Restart => Position(p.epoch + 1, x)
    case Stall => p
    case Backward => p
  }

  /** `p` is where the tracker stands. */
  predicate At(s: FtState, p: Position) {
    s.hasLast ==> Wrap(p.place) == s.previous
  }

  lemma AdvanceMoves(s: FtState, p: Position, x: uint32)
    requires At(s, p)
    ensures At(FtObserve(s, x).0, Advance(s, p, x))
    ensures Accepting(FtObserve(s, x).1) ==> Wrap(Advance(s, p, x).place) == x
    ensures s.hasLast ==> (Accepting(FtObserve(s, x).1) <==> Before(p, Advance(s, p, x)))
    ensures FtObserve(s, x).1 == Forward ==> 0 < Advance(s, p, x).place - p.place < HALF
  {
  }
}
