/**
 The bounded hand-off queue between the native worker and its readers: it drops
 the oldest sample when full, and a close moves a generation that invalidates
 every read begun before it.
 */
module SampleQueues {

  datatype ReadResult<T> = Sample(sample: T) | Timeout | Closed

  datatype Queue<T> = Queue(capacity: nat, samples: seq<T>, dropped: nat, generation: nat, closed: bool)

  function Push<T>(q: Queue<T>, x: T): Queue<T> {
    if |q.samples| == q.capacity && q.samples != []
    then q.(samples := q.samples[1..] + [x], dropped := q.dropped + 1)
    else q.(samples := q.samples + [x])
  }

  /** What a read finds at the instant its wait ends. */
  function Read<T>(q: Queue<T>, generation: nat): (Queue<T>, ReadResult<T>) {
    if q.closed || q.generation != generation then (q, Closed)
    else if q.samples == [] then (q, Timeout)
    else (q.(samples := q.samples[1..]), Sample(q.samples[0]))
  }

  function Close<T>(q: Queue<T>): Queue<T> {
    q.(closed := true, generation := q.generation + 1)
  }

  function Reset<T>(q: Queue<T>): Queue<T> {
    q.(samples := [], dropped := 0, closed := false)
  }

  class SampleQueue<T> {
    const capacity: nat
    var samples: seq<T>
    var droppedCount: nat
    var closeGeneration: nat
    var closed: bool

    function State(): Queue<T>
      reads this
    {
      Queue(capacity, samples, droppedCount, closeGeneration, closed)
    }

    ghost predicate Valid()
      reads this
    {
      0 < capacity && |samples| <= capacity
    }

    /** The queue, or null where the source throws: a capacity of zero. */
    static method Create(capacity: nat) returns (q: SampleQueue?<T>)
      ensures q == null <==> capacity == 0
      ensures q != null ==> fresh(q) && q.Valid() && q.State() == Queue(capacity, [], 0, 0, false)
    {
      if capacity == 0 {
        return null;
      }
      q := new SampleQueue(capacity);
    }

    constructor (capacity: nat)
      requires 0 < capacity
      ensures Valid() && State() == Queue(capacity, [], 0, 0, false)
    {
      this.capacity := capacity;
      samples, droppedCount, closeGeneration, closed := [], 0, 0, false;
    }

    method PushBack(x: T)
      requires Valid()
      modifies this
      ensures Valid() && State() == Push(old(State()), x)
    {
      if |samples| == capacity {
        samples := samples[1..];
        droppedCount := droppedCount + 1;
      }
      samples := samples + [x];
    }

    method ReadFor(generation: nat) returns (result: ReadResult<T>)
      requires Valid()
      modifies this
      ensures Valid() && (State(), result) == Read(old(State()), generation)
    {
      var ready := closed || closeGeneration != generation || samples != [];
      if !ready {
        return Timeout;
      }
      if closed || closeGeneration != generation {
        return Closed;
      }
      result := Sample(samples[0]);
      samples := samples[1..];
    }

    method CloseAll()
      requires Valid()
      modifies this
      ensures Valid() && State() == Close(old(State()))
    {
      closed := true;
      closeGeneration := closeGeneration + 1;
    }

    method ResetAll()
      requires Valid()
      modifies this
      ensures Valid() && State() == Reset(old(State()))
    {
      samples := [];
      droppedCount := 0;
      closed := false;
    }
  }

  // ---------------------------------------------------------------------
  // Everything that can happen between two resets
  // ---------------------------------------------------------------------

  datatype Op<T> = PushOp(x: T) | ReadOp(generation: nat) | CloseOp

  function Apply<T>(q: Queue<T>, op: Op<T>): Queue<T> {
    match op
    case PushOp(x) => Push(q, x)
    case ReadOp(g) => Read(q, g).0
    case CloseOp => Close(q)
  }

  function After<T>(q: Queue<T>, ops: seq<Op<T>>): Queue<T> {
    if ops == [] then q else Apply(After(q, ops[..|ops| - 1]), ops[|ops| - 1])
  }

  function Pushed<T>(ops: seq<Op<T>>): seq<T> {
    if ops == [] then []
    else
      var last := ops[|ops| - 1];
      Pushed(ops[..|ops| - 1]) + if last.PushOp? then [last.x] else []
  }

  /** The samples handed out by the reads of `ops`, in order. */
  function Taken<T>(q: Queue<T>, ops: seq<Op<T>>): seq<T> {
    if ops == [] then []
    else
      var last := ops[|ops| - 1];
      Taken(q, ops[..|ops| - 1])
      + if last.ReadOp? && Read(After(q, ops[..|ops| - 1]), last.generation).1.Sample?
        then [Read(After(q, ops[..|ops| - 1]), last.generation).1.sample] else []
  }

  /** The place in `Pushed` of each sample taken. */
  ghost function TakenAt<T>(q: Queue<T>, ops: seq<Op<T>>): seq<nat> {
    if ops == [] then []
    else
      var before := After(q, ops[..|ops| - 1]);
      var last := ops[|ops| - 1];
      TakenAt(q, ops[..|ops| - 1])
      + if last.ReadOp? && Read(before, last.generation).1.Sample?
        then [|Taken(q, ops[..|ops| - 1])| + before.dropped] else []
  }

  ghost predicate Increasing(xs: seq<nat>) {
    forall i, j :: 0 <= i < j < |xs| ==> xs[i] < xs[j]
  }

  /** `ys` is `xs` read at the increasing places `at`. */
  ghost predicate SelectedAt<T>(xs: seq<T>, at: seq<nat>, ys: seq<T>) {
    && |at| == |ys| && Increasing(at)
    && forall i :: 0 <= i < |at| ==> at[i] < |xs| && xs[at[i]] == ys[i]
  }

  ghost predicate Holds<T>(q: Queue<T>, pushed: seq<T>, taken: nat) {
    && |q.samples| <= q.capacity
    && taken + q.dropped + |q.samples| == |pushed|
    && q.samples == pushed[taken + q.dropped..]
  }

  lemma OneOp<T>(q: Queue<T>, op: Op<T>, pushed: seq<T>, taken: nat)
    requires 0 < q.capacity && Holds(q, pushed, taken)
    ensures Holds(Apply(q, op),
                  pushed + if op.PushOp? then [op.x] else [],
                  taken + if op.ReadOp? && Read(q, op.generation).1.Sample? then 1 else 0)
  {
    var first := taken + q.dropped;
    match op
    case PushOp(x) =>
      assert (pushed + [x])[first..] == q.samples + [x];
      assert q.samples != [] ==> (pushed + [x])[first + 1..] == q.samples[1..] + [x];
    case ReadOp(g) =>
      assert pushed + [] == pushed;
      assert q.samples != [] ==> pushed[first + 1..] == q.samples[1..];
    case CloseOp =>
      assert pushed + [] == pushed;
  }

  /** Conservation and content: nothing is lost but what was counted as dropped,
      and the queue holds exactly the newest samples not yet taken. */
  lemma {:induction false} QueueContent<T>(q: Queue<T>, ops: seq<Op<T>>)
    requires 0 < q.capacity && q.samples == [] && q.dropped == 0
    ensures After(q, ops).capacity == q.capacity && Holds(After(q, ops), Pushed(ops), |Taken(q, ops)|)
  {
    if ops != [] {
      var init, last := ops[..|ops| - 1], ops[|ops| - 1];
      QueueContent(q, init);
      OneOp(After(q, init), last, Pushed(init), |Taken(q, init)|);
    }
  }

  /** A read under the queue's own generation, while it is open, obtains the oldest
      sample neither taken nor dropped, if there is one, and else times out; any other
      read finds the queue closed. */
  lemma ReadObtains<T>(q: Queue<T>, generation: nat, pushed: seq<T>, taken: nat)
    requires Holds(q, pushed, taken)
    ensures Read(q, generation).1
         == if q.closed || q.generation != generation then Closed
            else if taken + q.dropped < |pushed| then Sample(pushed[taken + q.dropped])
            else Timeout
    ensures Read(q, generation).0 == q || Holds(Read(q, generation).0, pushed, taken + 1)
  {
    assert q.samples != [] ==> pushed[taken + q.dropped + 1..] == q.samples[1..];
  }

  /** A push drops a sample, the oldest, exactly when the queue is full. */
  lemma PushDrops<T>(q: Queue<T>, x: T, pushed: seq<T>, taken: nat)
    requires 0 < q.capacity && Holds(q, pushed, taken)
    ensures Push(q, x).dropped == q.dropped + if |pushed| - taken - q.dropped == q.capacity then 1 else 0
    ensures Holds(Push(q, x), pushed + [x], taken)
  {
    OneOp(q, PushOp(x), pushed, taken);
  }

  /** Over any operations since a reset: what the next read obtains. */
  lemma NextReadObtains<T>(q: Queue<T>, ops: seq<Op<T>>, generation: nat)
    requires 0 < q.capacity && q.samples == [] && q.dropped == 0
    ensures
      var q', pushed := After(q, ops), Pushed(ops);
      var next := |Taken(q, ops)| + q'.dropped;
      Read(q', generation).1
        == if q'.closed || q'.generation != generation then Closed
           else if next < |pushed| then Sample(pushed[next])
           else Timeout
  {
    QueueContent(q, ops);
    ReadObtains(After(q, ops), generation, Pushed(ops), |Taken(q, ops)|);
  }

  lemma SelectMore<T>(xs: seq<T>, at: seq<nat>, ys: seq<T>, more: seq<T>, place: nat)
    requires SelectedAt(xs, at, ys) && forall i :: 0 <= i < |at| ==> at[i] < place
    ensures SelectedAt(xs + more, at, ys)
    ensures place < |xs| ==> SelectedAt(xs, at + [place], ys + [xs[place]])
  {
  }

  /** Readers see an in-order selection of what was pushed, no sample twice. */
  lemma {:induction false} ReadsInOrder<T>(q: Queue<T>, ops: seq<Op<T>>)
    requires 0 < q.capacity && q.samples == [] && q.dropped == 0
    ensures SelectedAt(Pushed(ops), TakenAt(q, ops), Taken(q, ops))
    ensures forall i :: 0 <= i < |TakenAt(q, ops)| ==>
              TakenAt(q, ops)[i] < |Taken(q, ops)| + After(q, ops).dropped
  {
    if ops != [] {
      var init, last := ops[..|ops| - 1], ops[|ops| - 1];
      ReadsInOrder(q, init);
      QueueContent(q, init);
      var place := |Taken(q, init)| + After(q, init).dropped;
      SelectMore(Pushed(init), TakenAt(q, init), Taken(q, init), if last.PushOp? then [last.x] else [], place);
      assert place < |Pushed(init)| ==> Pushed(init)[place] == After(q, init).samples[0];
    }
  }

  /** After a close no read begun before it, and after the next reset none of an
      earlier generation, obtains a sample. */
  lemma {:induction false} StaleReadsFindNothing<T>(q: Queue<T>, ops: seq<Op<T>>, generation: nat)
    requires q.generation > generation
    ensures Read(After(q, ops), generation).1 == Closed
    ensures After(q, ops).generation >= q.generation
  {
    if ops != [] {
      StaleReadsFindNothing(q, ops[..|ops| - 1], generation);
    }
  }
}
