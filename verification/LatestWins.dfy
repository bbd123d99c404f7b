/**
 * The two latest-wins queues: crates/mini-aec-engine/src/queue.rs (capacity 4) and the timed queue of
 * crates/mini-aec-engine/src/synchronization.rs (capacity 8). They differ in capacity, in the frame
 * type and in `try_pop`, so one generic model serves both.
 */
module LatestWins {
  import opened AudioTypes

  type Capacity = n: nat | 0 < n witness 4

  const QUEUE_CAPACITY: Capacity := 4
  const TIMED_QUEUE_CAPACITY: Capacity := 8

  datatype Metrics = Metrics(depth: nat, highWater: nat, overflows: nat, discarded: nat)

  datatype Queue<T> = Queue(frames: seq<T>, producerDone: bool, failed: bool, metrics: Metrics)

  datatype PopResult<T> = Frame(frame: T) | Timeout | Finished

  function Empty<T>(): Queue<T> { Queue([], false, false, Metrics(0, 0, 0, 0)) }

  function WithFrames<T>(q: Queue<T>, frames: seq<T>): Queue<T> {
    q.(frames := frames, metrics := q.metrics.(depth := |frames|))
  }

  function AfterPush<T>(q: Queue<T>, capacity: Capacity, frame: T): Queue<T> {
    if q.failed || q.producerDone then q else
    var full := |q.frames| == capacity;
    var kept := (if full then q.frames[1..] else q.frames) + [frame];
    var lost := if full then 1 else 0;
    Queue(kept, q.producerDone, q.failed,
          Metrics(|kept|, Max(q.metrics.highWater, |kept|), q.metrics.overflows + lost, q.metrics.discarded + lost))
  }

  /** A pop, from the moment its wait (if any) is over: the queue decides alone what it returns. */
  function AfterPop<T>(q: Queue<T>): (Queue<T>, PopResult<T>) {
    if q.failed then (q, Finished)
    else if q.frames != [] then (WithFrames(q, q.frames[1..]), Frame(q.frames[0]))
    else (q, if q.producerDone then Finished else Timeout)
  }

  function AfterTryPop<T>(q: Queue<T>): (Queue<T>, Option<T>) {
    if q.frames == [] then (WithFrames(q, []), None)
    else (WithFrames(q, q.frames[1..]), Some(q.frames[0]))
  }

  function AfterFinish<T>(q: Queue<T>): Queue<T> { q.(producerDone := true) }

  function AfterFail<T>(q: Queue<T>): Queue<T> { WithFrames(q.(failed := true), []) }

  function AfterClear<T>(q: Queue<T>): Queue<T> { WithFrames(q, []) }

  datatype Op<T> = DoPush(frame: T) | DoPop | DoTryPop | DoFinish | DoFail | DoClear

  /** A queue with everything that happened to it: accepted pushes, and which of them were popped. */
  datatype Logged<T> = Logged(queue: Queue<T>, pushed: seq<T>, popped: seq<int>, cleared: nat)

  function Head<T>(l: Logged<T>): int { |l.pushed| - |l.queue.frames| }

  function Apply<T>(l: Logged<T>, capacity: Capacity, op: Op<T>): Logged<T> {
    var q := l.queue;
    match op
    case DoPush(frame) =>
      l.(queue := AfterPush(q, capacity, frame),
         pushed := if q.failed || q.producerDone then l.pushed else l.pushed + [frame])
    case DoPop =>
      l.(queue := AfterPop(q).0, popped := l.popped + if AfterPop(q).1.Frame? then [Head(l)] else [])
    case DoTryPop =>
      l.(queue := AfterTryPop(q).0, popped := l.popped + if AfterTryPop(q).1.Some? then [Head(l)] else [])
    case DoFinish => l.(queue := AfterFinish(q))
    case DoFail => l.(queue := AfterFail(q), cleared := l.cleared + |q.frames|)
    case DoClear => l.(queue := AfterClear(q), cleared := l.cleared + |q.frames|)
  }

  function Continue<T>(l: Logged<T>, capacity: Capacity, ops: seq<Op<T>>): Logged<T> {
    if ops == [] then l else Apply(Continue(l, capacity, ops[..|ops| - 1]), capacity, ops[|ops| - 1])
  }

  function Run<T>(capacity: Capacity, ops: seq<Op<T>>): Logged<T> {
    Continue(Logged(Empty(), [], [], 0), capacity, ops)
  }

  ghost predicate Increasing(s: seq<int>, bound: int) {
    && (forall i, j :: 0 <= i < j < |s| ==> s[i] < s[j])
    && (forall i :: 0 <= i < |s| ==> 0 <= s[i] < bound)
  }

  /**
   * The history explains the queue: it holds the newest accepted frames and nothing else, frames leave
   * in push order and at most once, and every accepted frame is popped, discarded, held or cleared.
   */
  ghost predicate Explained<T>(l: Logged<T>, capacity: Capacity) {
    var q := l.queue;
    && |q.frames| <= |l.pushed| && q.frames == l.pushed[Head(l)..]
    && Increasing(l.popped, Head(l))
    && |l.pushed| == |l.popped| + q.metrics.discarded + |q.frames| + l.cleared
    && q.metrics.overflows == q.metrics.discarded
    && q.metrics.depth == |q.frames| <= q.metrics.highWater <= capacity
    && (q.failed ==> q.frames == [])
  }

  lemma PushExplained<T>(l: Logged<T>, capacity: Capacity, frame: T)
    requires Explained(l, capacity)
    ensures Explained(Apply(l, capacity, DoPush(frame)), capacity)
  {
    var after := Apply(l, capacity, DoPush(frame));
    assert after.queue.frames == after.pushed[Head(after)..];
  }

  lemma ExplainedStep<T>(l: Logged<T>, capacity: Capacity, op: Op<T>)
    requires Explained(l, capacity)
    ensures Explained(Apply(l, capacity, op), capacity)
  {
    if op.DoPush? {
      PushExplained(l, capacity, op.frame);
    } else if op.DoPop? || op.DoTryPop? {
      var after := Apply(l, capacity, op);
      assert after.queue.frames == after.pushed[Head(after)..];
    }
  }

  /** Refinement: for every operation sequence the queue is exactly what its history says. */
  lemma {:induction false} QueueRefinesHistory<T>(capacity: Capacity, ops: seq<Op<T>>)
    ensures Explained(Run(capacity, ops), capacity)
  {
    if ops != [] {
      QueueRefinesHistory(capacity, ops[..|ops| - 1]);
      ExplainedStep(Run(capacity, ops[..|ops| - 1]), capacity, ops[|ops| - 1]);
    }
  }

  /** Bounded staleness: what a pop returns is among the last `capacity` frames accepted. */
  lemma PopIsFresh<T>(capacity: Capacity, ops: seq<Op<T>>)
    ensures var l := Run(capacity, ops);
            AfterPop(l.queue).1.Frame? ==>
              && 0 <= Head(l) < |l.pushed| <= Head(l) + capacity
              && AfterPop(l.queue).1.frame == l.pushed[Head(l)]
              && (l.popped != [] ==> l.popped[|l.popped| - 1] < Head(l))
  {
    QueueRefinesHistory(capacity, ops);
  }

  lemma {:induction false} IncreasingIsIdentity(s: seq<int>)
    requires Increasing(s, |s|)
    ensures forall i :: 0 <= i < |s| ==> s[i] == i
  {
    if s != [] {
      var n := |s| - 1;
      forall i | 0 <= i < n ensures s[i] < n {
        assert s[i] < s[n];
      }
      IncreasingIsIdentity(s[..n]);
      if n > 0 {
        assert s[n - 1] == s[..n][n - 1];
      }
    }
  }

  // ---- What the operations alone decide ----

  predicate IsFail<T>(op: Op<T>) { op.DoFail? }

  predicate IsFinish<T>(op: Op<T>) { op.DoFinish? }

  ghost predicate Ever<T>(p: Op<T> -> bool, ops: seq<Op<T>>) { exists i :: 0 <= i < |ops| && p(ops[i]) }

  /** The frames pushed before the queue was failed or its producer done. */
  ghost function Offered<T>(ops: seq<Op<T>>): seq<T> {
    if ops == [] then [] else
    var init, op := ops[..|ops| - 1], ops[|ops| - 1];
    Offered(init) + if op.DoPush? && !Ever(IsFail, init) && !Ever(IsFinish, init) then [op.frame] else []
  }

  lemma EverSnoc<T>(p: Op<T> -> bool, ops: seq<Op<T>>)
    requires ops != []
    ensures Ever(p, ops) <==> Ever(p, ops[..|ops| - 1]) || p(ops[|ops| - 1])
  {
    var init := ops[..|ops| - 1];
    if i :| 0 <= i < |init| && p(init[i]) {
      assert p(ops[i]);
    }
    if i :| 0 <= i < |ops| && p(ops[i]) {
      assert i == |init| || p(init[i]);
    }
  }

  lemma FlagsStep<T>(l: Logged<T>, capacity: Capacity, op: Op<T>)
    ensures var l' := Apply(l, capacity, op);
            && l'.queue.failed == (l.queue.failed || op.DoFail?)
            && l'.queue.producerDone == (l.queue.producerDone || op.DoFinish?)
            && l'.pushed == l.pushed + if op.DoPush? && !l.queue.failed && !l.queue.producerDone then [op.frame] else []
  {
    assert l.pushed + [] == l.pushed;
  }

  /** A push is accepted exactly until the first failure or the end of the producer, and flags never fall. */
  lemma {:induction false} AcceptedExactly<T>(capacity: Capacity, ops: seq<Op<T>>)
    ensures var l := Run(capacity, ops);
            && l.pushed == Offered(ops)
            && (l.queue.failed <==> Ever(IsFail, ops)) && (l.queue.producerDone <==> Ever(IsFinish, ops))
  {
    if ops != [] {
      var init, op := ops[..|ops| - 1], ops[|ops| - 1];
      AcceptedExactly(capacity, init);
      EverSnoc(IsFail, ops);
      EverSnoc(IsFinish, ops);
      FlagsStep(Run(capacity, init), capacity, op);
      hide Apply, Ever;
    }
  }

  /** What a pop and a look answer is decided by the history: the oldest frame left, or why there is none. */
  lemma PopAnswers<T>(capacity: Capacity, ops: seq<Op<T>>)
    ensures var l := Run(capacity, ops); var left := |l.pushed| > Head(l);
            && 0 <= Head(l) == |l.popped| + l.queue.metrics.discarded + l.cleared
            && AfterTryPop(l.queue).1 == (if left then Some(l.pushed[Head(l)]) else None)
            && AfterPop(l.queue).1 == (if left then Frame(l.pushed[Head(l)])
                                       else if Ever(IsFail, ops) || Ever(IsFinish, ops) then Finished
                                       else Timeout)
  {
    QueueRefinesHistory(capacity, ops);
    AcceptedExactly(capacity, ops);
    hide Run, Ever, Offered;
  }

  /** A push loses a frame only when the queue is full, and then exactly one. */
  lemma PushLosesOnlyWhenFull<T>(capacity: Capacity, ops: seq<Op<T>>, frame: T)
    ensures var l := Run(capacity, ops); var l' := Apply(l, capacity, DoPush(frame));
            !Ever(IsFail, ops) && !Ever(IsFinish, ops) ==>
              if |l.queue.frames| < capacity
              then && l'.queue.frames == l.queue.frames + [frame]
                   && l'.queue.metrics.discarded == l.queue.metrics.discarded
              else && l.queue.frames != [] && l'.queue.frames == l.queue.frames[1..] + [frame]
                   && l'.queue.metrics.discarded == l.queue.metrics.discarded + 1
  {
    QueueRefinesHistory(capacity, ops);
    AcceptedExactly(capacity, ops);
    hide Run, Ever, Offered;
  }

  function Depth<T>(capacity: Capacity, ops: seq<Op<T>>, n: nat): nat
    requires n <= |ops|
  {
    Run(capacity, ops[..n]).queue.metrics.depth
  }

  lemma WaterStep<T>(l: Logged<T>, capacity: Capacity, op: Op<T>)
    requires Explained(l, capacity)
    ensures var (m, m') := (l.queue.metrics, Apply(l, capacity, op).queue.metrics);
            m'.highWater == Max(m.highWater, m'.depth)
  {
  }

  /** The high-water mark is the largest depth there ever was. */
  lemma {:induction false} HighWaterIsReached<T>(capacity: Capacity, ops: seq<Op<T>>)
    ensures var high := Run(capacity, ops).queue.metrics.highWater;
            && (forall n :: 0 <= n <= |ops| ==> Depth(capacity, ops, n) <= high)
            && (exists n :: 0 <= n <= |ops| && Depth(capacity, ops, n) == high)
  {
    var m := |ops|;
    assert ops[..m] == ops;
    if ops == [] {
      assert Depth(capacity, ops, 0) == 0;
    } else {
      var init := ops[..m - 1];
      HighWaterIsReached(capacity, init);
      QueueRefinesHistory(capacity, init);
      WaterStep(Run(capacity, init), capacity, ops[m - 1]);
      var high := Run(capacity, ops).queue.metrics.highWater;
      forall n | 0 <= n <= m ensures Depth(capacity, ops, n) <= high {
        DepthOfPrefix(capacity, ops, n);
      }
      var before :|
        0 <= before <= m - 1 && Depth(capacity, init, before) == Run(capacity, init).queue.metrics.highWater;
      DepthOfPrefix(capacity, ops, before);
      assert Depth(capacity, ops, before) == high || Depth(capacity, ops, m) == high;
      hide Apply;
    }
  }

  lemma DepthOfPrefix<T>(capacity: Capacity, ops: seq<Op<T>>, n: nat)
    requires n <= |ops|
    ensures n < |ops| ==> Depth(capacity, ops, n) == Depth(capacity, ops[..|ops| - 1], n)
    ensures n == |ops| ==> Depth(capacity, ops, n) == Run(capacity, ops).queue.metrics.depth
  {
    assert n < |ops| ==> ops[..|ops| - 1][..n] == ops[..n];
    assert n == |ops| ==> ops[..n] == ops;
    hide Run;
  }

  /** While nothing overflowed and nothing was cleared, the pops are the pushes, in order, without a gap. */
  lemma NoLossNoGap<T>(capacity: Capacity, ops: seq<Op<T>>)
    requires Run(capacity, ops).queue.metrics.overflows == 0 && Run(capacity, ops).cleared == 0
    ensures var l := Run(capacity, ops);
            |l.popped| == Head(l) && forall i :: 0 <= i < |l.popped| ==> l.popped[i] == i
  {
    QueueRefinesHistory(capacity, ops);
    IncreasingIsIdentity(Run(capacity, ops).popped);
  }

  /** Once failed, a queue is empty for good: no later operation lets a frame in or out. */
  lemma {:induction false} FailedStaysEmpty<T>(l: Logged<T>, capacity: Capacity, ops: seq<Op<T>>)
    requires l.queue.failed && l.queue.frames == []
    ensures var r := Continue(l, capacity, ops);
            r.queue.failed && r.queue.frames == [] && r.popped == l.popped && r.pushed == l.pushed
    decreases |ops|
  {
    if ops != [] {
      FailedStaysEmpty(l, capacity, ops[..|ops| - 1]);
    }
  }

  /** A consumer that only pops: what it gets, up to and including the answer that ends its loop. */
  function Drain<T>(q: Queue<T>): (r: (seq<T>, nat))
    requires q.producerDone
    decreases |q.frames|
  {
    match AfterPop(q).1
    case Frame(f) => var rest := Drain(AfterPop(q).0); ([f] + rest.0, 1 + rest.1)
    case _ => ([], 1)
  }

  /** After the producer is done, depth + 1 pops end the loop, and an unfailed queue loses nothing. */
  lemma {:induction false} DrainIsBounded<T>(q: Queue<T>)
    requires q.producerDone && (q.failed ==> q.frames == [])
    ensures Drain(q).0 == q.frames
    ensures Drain(q).1 == |q.frames| + 1
    decreases |q.frames|
  {
    if q.frames != [] {
      DrainIsBounded(AfterPop(q).0);
    }
  }

  class FrameQueue<T> {
    const capacity: Capacity
    var frames: seq<T>
    var producerDone: bool
    var failed: bool
    var metrics: Metrics
    ghost var pushed: seq<T>
    ghost var popped: seq<int>
    ghost var cleared: nat

    ghost function Value(): Queue<T>
      reads this
    {
      Queue(frames, producerDone, failed, metrics)
    }

    /** The queue with its history. */
    ghost function Log(): Logged<T>
      reads this
    {
      Logged(Value(), pushed, popped, cleared)
    }

    ghost predicate Valid()
      reads this
    {
      Explained(Log(), capacity)
    }

    constructor (capacity: Capacity)
      ensures Valid() && this.capacity == capacity && Log() == Logged(Empty(), [], [], 0)
    {
      this.capacity := capacity;
      frames, producerDone, failed := [], false, false;
      metrics := Metrics(0, 0, 0, 0);
      pushed, popped, cleared := [], [], 0;
    }

    method Push(frame: T) returns (result: Metrics)
      requires Valid()
      modifies this
      ensures Valid() && result == metrics
      ensures Log() == Apply(old(Log()), capacity, DoPush(frame))
    {
      hide Explained;
      ExplainedStep(Log(), capacity, DoPush(frame));
      if failed || producerDone {
        return metrics;
      }
      if |frames| == capacity {
        frames := frames[1..];
        metrics := metrics.(overflows := metrics.overflows + 1);
        metrics := metrics.(discarded := metrics.discarded + 1);
      }
      frames := frames + [frame];
      metrics := metrics.(depth := |frames|);
      metrics := metrics.(highWater := Max(metrics.highWater, metrics.depth));
      pushed := pushed + [frame];
      result := metrics;
    }

    method Pop() returns (result: PopResult<T>)
      requires Valid()
      modifies this
      ensures Valid() && result == AfterPop(old(Value())).1
      ensures Log() == Apply(old(Log()), capacity, DoPop)
    {
      hide Explained;
      ExplainedStep(Log(), capacity, DoPop);
      if failed {
        return Finished;
      }
      if frames != [] {
        popped := popped + [Head(Log())];
        result := Frame(frames[0]);
        frames := frames[1..];
        metrics := metrics.(depth := |frames|);
      } else if producerDone {
        result := Finished;
      } else {
        result := Timeout;
      }
    }

    method TryPop() returns (result: Option<T>)
      requires Valid()
      modifies this
      ensures Valid() && result == AfterTryPop(old(Value())).1
      ensures Log() == Apply(old(Log()), capacity, DoTryPop)
    {
      hide Explained;
      ExplainedStep(Log(), capacity, DoTryPop);
      result := None;
      assert popped + [] == popped;
      if frames != [] {
        popped := popped + [Head(Log())];
        result := Some(frames[0]);
        frames := frames[1..];
      }
      metrics := metrics.(depth := |frames|);
    }

    method FinishProducer()
      requires Valid()
      modifies this
      ensures Valid()
      ensures Log() == Apply(old(Log()), capacity, DoFinish)
    {
      hide Explained;
      ExplainedStep(Log(), capacity, DoFinish);
      producerDone := true;
    }

    method Fail()
      requires Valid()
      modifies this
      ensures Valid()
      ensures Log() == Apply(old(Log()), capacity, DoFail)
    {
      hide Explained;
      ExplainedStep(Log(), capacity, DoFail);
      cleared := cleared + |frames|;
      failed := true;
      frames := [];
      metrics := metrics.(depth := 0);
    }

    method Clear() returns (result: Metrics)
      requires Valid()
      modifies this
      ensures Valid() && result == metrics
      ensures Log() == Apply(old(Log()), capacity, DoClear)
    {
      hide Explained;
      ExplainedStep(Log(), capacity, DoClear);
      cleared := cleared + |frames|;
      frames := [];
      metrics := metrics.(depth := 0);
      result := metrics;
    }
  }
}
