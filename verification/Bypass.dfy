/**
 * A bypass run of crates/mini-aec-engine/src/runtime.rs as interleaved threads: the capture worker, the
 * sink worker and the controller. One event is one step between two accesses to shared state.
 */
module Bypass {
  import opened AudioTypes
  import opened EngineTypes
  import opened LatestWins
  import Framing

  const DIAGNOSTICS_INTERVAL: nat := 100

  type PcmFrame = seq<int>

  const OVERSIZED_PACKET := EngineError(SourceFailure, "capture packet exceeds the preallocated capacity")

  datatype Thread = CaptureThread | SinkThread | ControlThread

  /** Where a thread is inside `record_failure`. */
  datatype Recording =
    | Cas(error: EngineError)
    | Raise(error: EngineError)
    | FailQueue(error: EngineError)
    | Publish(error: EngineError)

  datatype Capture =
    | Opening
    | LoopHead
    | Awaiting
    | Pushing(rest: seq<PcmFrame>)
    | Counting(metrics: Metrics, rest: seq<PcmFrame>)
    | CaptureFails(recording: Recording, stopped: bool)
    | StoppingInput
    | CheckingTerminal(error: EngineError)
    | Finishing
    | CaptureDone

  /** What a sink failure leads to. */
  datatype After = ThenClose | ThenDiagnose | ThenEnd

  datatype Sink =
    | Popping
    | Writing(frame: PcmFrame)
    | Accepting
    | Diagnosing
    | CountingFailure(error: EngineError, after: After)
    | SinkFails(recording: Recording, after: After)
    | Closing
    | FinalDiagnosing
    | FinalChecking(error: EngineError)
    | SinkDone

  datatype Control =
    | Waiting
    | StartFails(recording: Recording)
    | Idle
    | Marking
    | Raising(stopping: bool)
    | Joining(stopping: bool)
    | Clearing(stopping: bool)
    | Updating(metrics: Metrics, stopping: bool)
    | WritingStopped
    | ControlDone

  datatype Snapshot = Snapshot(
    state: EngineState, lastError: Option<EngineError>,
    outputFrames: nat, accepted: nat, sinkFailures: nat, queue: Metrics)

  /** What happened, kept beside the state to say what must hold of it. */
  datatype History = History(
    packets: seq<Packet>, emitted: seq<PcmFrame>, written: seq<(nat, PcmFrame)>, rejected: nat,
    winner: Option<Thread>, latched: Option<EngineError>, writtenAtFail: nat)

  datatype State = State(
    stop: bool, terminal: bool, ready: bool, snap: Snapshot, log: Logged<PcmFrame>,
    capture: Capture, pending: seq<int>, sink: Sink, sequence: nat, control: Control, past: History)

  /** The sink session is open and the capture thread has just been spawned. */
  const INITIAL := State(
    false, false, false, Snapshot(Starting, None, 0, 0, 0, Metrics(0, 0, 0, 0)), Logged(Empty(), [], [], 0),
    Opening, [], Popping, 0, Waiting, History([], [], [], 0, None, None, 0))

  /** An outcome chosen by the outside world. */
  datatype Outcome = Fine | Fault(error: EngineError)

  datatype Reading = Nothing | Received(packet: Packet) | ReadError(error: EngineError)

  datatype Event =
    | CaptureStep(outcome: Outcome, reading: Reading)
    | SinkStep(outcome: Outcome)
    | ControlStep(outcome: Outcome)

  /** One step of `record_failure` by thread `t`, and where it goes on; None when it is over. */
  function Record(s: State, t: Thread, r: Recording): (State, Option<Recording>) {
    match r
    case Cas(e) =>
      if s.terminal then (s, None)
      else (s.(terminal := true, past := s.past.(winner := Some(t), latched := Some(e))), Some(Raise(e)))
    case Raise(e) => (s.(stop := true), Some(FailQueue(e)))
    case FailQueue(e) =>
      (s.(log := Apply(s.log, QUEUE_CAPACITY, DoFail), past := s.past.(writtenAtFail := |s.past.written|)),
       Some(Publish(e)))
    case Publish(e) =>
      (s.(snap := s.snap.(state := Failed, lastError := Some(e), queue := s.snap.queue.(depth := 0))), None)
  }

  function CaptureReads(s: State, reading: Reading): State {
    match reading
    case Nothing => s.(capture := LoopHead)
    case ReadError(e) => s.(capture := CaptureFails(Cas(e), false))
    case Received(p) =>
      if p.metadata.frames > PACKET_CAPACITY then
        s.(capture := CaptureFails(Cas(OVERSIZED_PACKET), false))
      else
        var fed := Framing.Feed(s.pending, Framing.PcmBlock(p));
        s.(capture := Pushing(fed.frames), pending := fed.pending, past := s.past.(packets := s.past.packets + [p]))
  }

  function ResumeCapture(next: Option<Recording>, stopped: bool): Capture {
    if next.Some? then CaptureFails(next.value, stopped) else if stopped then Finishing else StoppingInput
  }

  function CaptureNext(s: State, outcome: Outcome, reading: Reading): Option<State> {
    match s.capture
    case Opening =>
      Some(if outcome.Fine? then s.(capture := LoopHead, ready := true) else s.(capture := Finishing))
    case LoopHead => Some(s.(capture := if s.stop then StoppingInput else Awaiting))
    case Awaiting => Some(CaptureReads(s, reading))
    case Pushing(rest) =>
      if rest == [] then Some(s.(capture := LoopHead)) else
      var log := Apply(s.log, QUEUE_CAPACITY, DoPush(rest[0]));
      Some(s.(log := log, capture := Counting(log.queue.metrics, rest[1..]),
              past := s.past.(emitted := s.past.emitted + [rest[0]])))
    case Counting(metrics, rest) =>
      Some(s.(capture := Pushing(rest),
              snap := s.snap.(outputFrames := s.snap.outputFrames + 1, queue := metrics)))
    case CaptureFails(r, stopped) =>
      var (s', next) := Record(s, CaptureThread, r);
      Some(s'.(capture := ResumeCapture(next, stopped)))
    case StoppingInput =>
      Some(s.(pending := [], capture := if outcome.Fine? then Finishing else CheckingTerminal(outcome.error)))
    case CheckingTerminal(e) =>
      Some(s.(capture := if s.terminal then Finishing else CaptureFails(Cas(e), true)))
    case Finishing =>
      Some(s.(capture := CaptureDone, pending := [], log := Apply(s.log, QUEUE_CAPACITY, DoFinish)))
    case CaptureDone => None
  }

  function ResumeSink(next: Option<Recording>, after: After): Sink {
    if next.Some? then SinkFails(next.value, after) else
    match after
    case ThenClose => Closing
    case ThenDiagnose => FinalDiagnosing
    case ThenEnd => SinkDone
  }

  function AfterAnswer(result: PopResult<PcmFrame>): Sink {
    match result
    case Frame(f) => Writing(f)
    case Timeout => Popping
    case Finished => Closing
  }

  function SinkNext(s: State, outcome: Outcome): Option<State> {
    match s.sink
    case Popping =>
      Some(s.(log := Apply(s.log, QUEUE_CAPACITY, DoPop), sink := AfterAnswer(AfterPop(s.log.queue).1)))
    case Writing(f) =>
      if outcome.Fine? then
        Some(s.(sink := Accepting, sequence := s.sequence + 1,
                past := s.past.(written := s.past.written + [(s.sequence, f)])))
      else
        Some(s.(sink := CountingFailure(outcome.error, ThenClose), past := s.past.(rejected := s.past.rejected + 1)))
    case Accepting =>
      Some(s.(sink := if s.sequence % DIAGNOSTICS_INTERVAL == 0 then Diagnosing else Popping,
              snap := s.snap.(accepted := s.snap.accepted + 1)))
    case Diagnosing =>
      Some(s.(sink := if outcome.Fine? then Popping else CountingFailure(outcome.error, ThenClose)))
    case CountingFailure(e, after) =>
      Some(s.(sink := SinkFails(Cas(e), after), snap := s.snap.(sinkFailures := s.snap.sinkFailures + 1)))
    case SinkFails(r, after) =>
      var (s', next) := Record(s, SinkThread, r);
      Some(s'.(sink := ResumeSink(next, after)))
    case Closing =>
      Some(s.(sink := if outcome.Fine? then FinalDiagnosing else CountingFailure(outcome.error, ThenDiagnose)))
    case FinalDiagnosing =>
      Some(s.(sink := if outcome.Fine? then SinkDone else FinalChecking(outcome.error)))
    case FinalChecking(e) =>
      Some(s.(sink := if s.terminal then SinkDone else CountingFailure(e, ThenEnd)))
    case SinkDone => None
  }

  function ResumeStart(next: Option<Recording>): Control {
    if next.Some? then StartFails(next.value) else Raising(false)
  }

  function ControlNext(s: State, outcome: Outcome): Option<State> {
    match s.control
    case Waiting =>
      if outcome.Fault? then Some(s.(control := StartFails(Cas(outcome.error))))
      else if !s.ready then None
      else if s.terminal then Some(s.(control := Idle))
      else Some(s.(control := Idle, snap := s.snap.(state := RunningBypass)))
    case StartFails(r) =>
      var (s', next) := Record(s, ControlThread, r);
      Some(s'.(control := ResumeStart(next)))
    case Idle => Some(s.(control := if s.snap.state == Failed then Raising(true) else Marking))
    case Marking => Some(s.(control := Raising(true), snap := s.snap.(state := Stopping)))
    case Raising(stopping) => Some(s.(control := Joining(stopping), stop := true))
    case Joining(stopping) =>
      if s.capture.CaptureDone? && s.sink.SinkDone? then Some(s.(control := Clearing(stopping))) else None
    case Clearing(stopping) =>
      var log := Apply(s.log, QUEUE_CAPACITY, DoClear);
      Some(s.(log := log, control := Updating(log.queue.metrics, stopping)))
    case Updating(metrics, stopping) =>
      Some(s.(snap := s.snap.(queue := metrics), control := if stopping then WritingStopped else ControlDone))
    case WritingStopped =>
      Some(s.(snap := s.snap.(state := Stopped, queue := s.snap.queue.(depth := 0)), control := ControlDone))
    case ControlDone => None
  }

  /** The step relation: None when the thread cannot move. */
  function Next(s: State, e: Event): Option<State> {
    match e
    case CaptureStep(outcome, reading) => CaptureNext(s, outcome, reading)
    case SinkStep(outcome) => SinkNext(s, outcome)
    case ControlStep(outcome) => ControlNext(s, outcome)
  }

  /** Every interleaving is a list of events; None when one of them is not possible. */
  function RunAll(events: seq<Event>): Option<State> {
    if events == [] then Some(INITIAL) else
    var before := RunAll(events[..|events| - 1]);
    if before.None? then None else Next(before.value, events[|events| - 1])
  }

  // ---- Frames ----

  /** What the accumulator makes of the packets received so far. */
  function Captured(packets: seq<Packet>): Framing.Framed<int> { Framing.Run(Framing.PcmBlocks(packets)) }

  /** The frames the capture worker still has to hand over. */
  function Unpushed(c: Capture): seq<PcmFrame> {
    match c
    case Pushing(rest) => rest
    case Counting(_, rest) => rest
    case _ => []
  }

  ghost predicate Capturing(c: Capture) {
    c.Opening? || c.LoopHead? || c.Awaiting? || c.Pushing? || c.Counting?
  }

  /** The sink takes no further frame. */
  ghost predicate PastPopping(k: Sink) {
    !(k.Popping? || k.Writing? || k.Accepting? || k.Diagnosing?)
  }

  function InFlight(k: Sink): nat { if k.Writing? then 1 else 0 }

  /** What reached the queue, and through it the sink, is what the accumulator made of the packets. */
  ghost predicate Flow(s: State) {
    var q, past := s.log.queue, s.past;
    && past.emitted + Unpushed(s.capture) == Captured(past.packets).frames
    && (Capturing(s.capture) ==> s.pending == Captured(past.packets).pending)
    && (q.producerDone <==> s.capture.CaptureDone?)
    && s.log.pushed <= past.emitted
    && (!q.failed ==> s.log.pushed == past.emitted && s.log.cleared == 0)
  }

  /** Frame k that the sink took is the k-th one popped, written under number k. */
  ghost predicate Order(s: State)
    requires Explained(s.log, QUEUE_CAPACITY)
  {
    var past := s.past;
    && |s.log.popped| == |past.written| + InFlight(s.sink) + past.rejected
    && past.rejected <= 1 && (past.rejected == 1 ==> PastPopping(s.sink))
    && s.sequence == |past.written|
    && (s.sink.Writing? ==> s.sink.frame == s.log.pushed[s.log.popped[|past.written|]])
    && (forall k :: 0 <= k < |past.written| ==> past.written[k] == (k, s.log.pushed[s.log.popped[k]]))
  }

  // ---- Failure ----

  function RecordingOf(s: State, t: Thread): Option<Recording> {
    match t
    case CaptureThread => if s.capture.CaptureFails? then Some(s.capture.recording) else None
    case SinkThread => if s.sink.SinkFails? then Some(s.sink.recording) else None
    case ControlThread => if s.control.StartFails? then Some(s.control.recording) else None
  }

  /** A thread that won the compare-and-swap and has not finished the failure body. */
  function Active(s: State, t: Thread): Option<Recording> {
    var r := RecordingOf(s, t);
    if r.Some? && !r.value.Cas? then r else None
  }

  ghost predicate Progress(s: State, r: Option<Recording>) {
    match r
    case None => s.stop && s.log.queue.failed && s.snap.lastError == s.past.latched
    case Some(Raise(_)) => !s.log.queue.failed && s.snap.lastError.None?
    case Some(FailQueue(_)) => s.stop && !s.log.queue.failed && s.snap.lastError.None?
    case Some(_) => s.stop && s.log.queue.failed && s.snap.lastError.None?
  }

  ghost predicate ActiveIsWinner(s: State, t: Thread) {
    Active(s, t).Some? ==> s.past.winner == Some(t) && s.past.latched == Some(Active(s, t).value.error)
  }

  /** At most one thread runs the failure body, and it reports the error that won. */
  ghost predicate Latch(s: State) {
    var past := s.past;
    && (s.terminal <==> past.winner.Some?) && (s.terminal <==> past.latched.Some?)
    && (forall t :: ActiveIsWinner(s, t))
    && (if s.terminal then Progress(s, Active(s, past.winner.value)) else s.snap.lastError.None? && !s.log.queue.failed)
    && (s.snap.state == Failed ==> s.snap.lastError.Some?)
    && (s.log.queue.failed ==>
          && past.writtenAtFail <= |past.written|
          && |past.written| + InFlight(s.sink) <= past.writtenAtFail + 1
          && s.log.queue.frames == [])
  }

  // ---- Totals ----

  /** A sink that is about to try to latch a failure. */
  ghost predicate Doomed(k: Sink) { k.CountingFailure? || (k.SinkFails? && k.recording.Cas?) }

  ghost predicate Joined(c: Control) { c.Clearing? || c.Updating? || c.WritingStopped? || c.ControlDone? }

  ghost predicate Totals(s: State) {
    var q, past := s.log.queue, s.past;
    && s.snap.outputFrames + (if s.capture.Counting? then 1 else 0) == |past.emitted|
    && s.snap.accepted + (if s.sink.Accepting? then 1 else 0) == |past.written|
    && (PastPopping(s.sink) ==> Doomed(s.sink) || s.terminal || (q.producerDone && q.frames == []))
    && (past.rejected > 0 ==> Doomed(s.sink) || s.terminal)
    && (Joined(s.control) ==> s.capture.CaptureDone? && s.sink.SinkDone?)
    && (s.control.Updating? ==> s.control.metrics == q.metrics)
    && (s.control.WritingStopped? || s.control.ControlDone? ==> s.snap.queue.discarded == q.metrics.discarded)
    && (s.snap.state == Stopped ==> s.control.ControlDone?)
  }

  ghost predicate Inv(s: State) { Explained(s.log, QUEUE_CAPACITY) && Flow(s) && Order(s) && Latch(s) && Totals(s) }

  lemma InitialInv()
    ensures Inv(INITIAL)
  {
    hide Flow, Latch, Explained;
    InitialQueue();
    InitialFlow();
    InitialLatch();
  }

  lemma InitialQueue()
    ensures Explained(INITIAL.log, QUEUE_CAPACITY)
  {
  }

  lemma InitialFlow()
    ensures Flow(INITIAL)
  {
    assert Captured([]) == Framing.Framed([], []);
    hide Captured;
  }

  lemma InitialLatch()
    ensures Latch(INITIAL)
  {
    assert forall t :: Active(INITIAL, t).None?;
    hide Active;
  }

  /** The queue operation of a step, if any. */
  function QueueOp(s: State, e: Event): Option<Op<PcmFrame>> {
    match e
    case CaptureStep(_, _) =>
      if s.capture.Pushing? && s.capture.rest != [] then Some(DoPush(s.capture.rest[0]))
      else if s.capture.CaptureFails? && s.capture.recording.FailQueue? then Some(DoFail)
      else if s.capture.Finishing? then Some(DoFinish)
      else None
    case SinkStep(_) =>
      if s.sink.Popping? then Some(DoPop)
      else if s.sink.SinkFails? && s.sink.recording.FailQueue? then Some(DoFail)
      else None
    case ControlStep(_) =>
      if s.control.StartFails? && s.control.recording.FailQueue? then Some(DoFail)
      else if s.control.Clearing? then Some(DoClear)
      else None
  }

  lemma CaptureAppliesOp(s: State, outcome: Outcome, reading: Reading)
    requires CaptureNext(s, outcome, reading).Some?
    ensures var op := QueueOp(s, CaptureStep(outcome, reading));
            CaptureNext(s, outcome, reading).value.log
            == if op.Some? then Apply(s.log, QUEUE_CAPACITY, op.value) else s.log
  {
    if s.capture.Awaiting? {
      ReadMoves(s, reading);
    }
    hide Apply, CaptureReads;
  }

  lemma StepAppliesOp(s: State, e: Event)
    requires Next(s, e).Some?
    ensures Next(s, e).value.log
         == (if QueueOp(s, e).Some? then Apply(s.log, QUEUE_CAPACITY, QueueOp(s, e).value) else s.log)
  {
    hide CaptureNext, Apply, AfterPop;
    if e.CaptureStep? {
      CaptureAppliesOp(s, e.outcome, e.reading);
    }
  }

  lemma StepQueue(s: State, e: Event)
    requires Explained(s.log, QUEUE_CAPACITY) && Next(s, e).Some?
    ensures Explained(Next(s, e).value.log, QUEUE_CAPACITY)
  {
    StepAppliesOp(s, e);
    hide Explained, Apply, Next, QueueOp;
    if QueueOp(s, e).Some? {
      ExplainedStep(s.log, QUEUE_CAPACITY, QueueOp(s, e).value);
    }
  }

  lemma CapturedSnoc(packets: seq<Packet>, p: Packet)
    ensures var before := Captured(packets);
            var fed := Framing.Feed(before.pending, Framing.PcmBlock(p));
            Captured(packets + [p]) == Framing.Framed(before.frames + fed.frames, fed.pending)
  {
    var blocks := Framing.PcmBlocks(packets + [p]);
    assert blocks[..|packets|] == Framing.PcmBlocks(packets);
    assert blocks[|packets|] == Framing.PcmBlock(p);
  }

  /** What each operation does to the history, as far as the frames are concerned. */
  ghost predicate Effect(l: Logged<PcmFrame>, op: Op<PcmFrame>, l': Logged<PcmFrame>) {
    var q, q' := l.queue, l'.queue;
    match op
    case DoPush(x) =>
      if q.failed || q.producerDone then l' == l else
      && l'.pushed == l.pushed + [x] && l'.popped == l.popped && l'.cleared == l.cleared
      && !q'.failed && !q'.producerDone
    case DoPop =>
      if q.failed || q.frames == [] then l' == l else
      && l'.pushed == l.pushed && l'.popped == l.popped + [Head(l)] && l'.cleared == l.cleared
      && q'.failed == q.failed && q'.producerDone == q.producerDone && q'.frames == q.frames[1..]
    case DoTryPop => true
    case DoFinish => l' == l.(queue := q.(producerDone := true))
    case DoFail =>
      && l'.pushed == l.pushed && l'.popped == l.popped
      && q'.failed && q'.producerDone == q.producerDone && q'.frames == []
    case DoClear =>
      && l'.pushed == l.pushed && l'.popped == l.popped && l'.cleared == l.cleared + |q.frames|
      && q'.failed == q.failed && q'.producerDone == q.producerDone && q'.frames == []
      && q'.metrics.discarded == q.metrics.discarded
  }

  lemma HasEffect(l: Logged<PcmFrame>, op: Op<PcmFrame>)
    ensures Effect(l, op, Apply(l, QUEUE_CAPACITY, op))
  {
  }

  // Each thread's steps by what they touch: the queue, the failure body, or only the thread's own fields.

  predicate CaptureMovesOnly(c: Capture) {
    !c.CaptureFails? && !c.Finishing? && !(c.Pushing? && c.rest != [])
  }

  lemma ReadMoves(s: State, reading: Reading)
    requires s.capture.Awaiting?
    ensures var s' := CaptureReads(s, reading);
            && s' == s.(capture := s'.capture, pending := s'.pending, past := s.past.(packets := s'.past.packets))
            && !s'.capture.CaptureDone? && !s'.capture.Counting?
            && (s'.capture.CaptureFails? ==> s'.capture.recording.Cas?)
  {
    hide Framing.Feed, Framing.PcmBlock;
  }

  lemma CaptureMoves(s: State, outcome: Outcome, reading: Reading)
    requires CaptureNext(s, outcome, reading).Some? && CaptureMovesOnly(s.capture)
    ensures var s' := CaptureNext(s, outcome, reading).value;
            && s' == s.(capture := s'.capture, pending := s'.pending, ready := s'.ready,
                        snap := s.snap.(outputFrames := s'.snap.outputFrames, queue := s'.snap.queue),
                        past := s.past.(packets := s'.past.packets))
            && !s'.capture.CaptureDone? && (s'.capture.CaptureFails? ==> s'.capture.recording.Cas?)
            && s'.snap.outputFrames + (if s'.capture.Counting? then 1 else 0)
               == s.snap.outputFrames + (if s.capture.Counting? then 1 else 0)
  {
    if s.capture.Awaiting? {
      ReadMoves(s, reading);
    }
    hide CaptureReads;
  }

  predicate SinkMovesOnly(k: Sink) { !k.Popping? && !k.SinkFails? && !k.Writing? }

  lemma SinkMoves(s: State, outcome: Outcome)
    requires SinkNext(s, outcome).Some? && SinkMovesOnly(s.sink)
    ensures var s' := SinkNext(s, outcome).value;
            && s' == s.(sink := s'.sink,
                        snap := s.snap.(accepted := s'.snap.accepted, sinkFailures := s'.snap.sinkFailures))
            && !s'.sink.Writing? && !s'.sink.Accepting? && (s'.sink.SinkFails? ==> s'.sink.recording.Cas?)
            && s'.snap.accepted == s.snap.accepted + (if s.sink.Accepting? then 1 else 0)
            && (PastPopping(s.sink) ==> PastPopping(s'.sink))
            && (Doomed(s.sink) ==> Doomed(s'.sink))
            && (!PastPopping(s.sink) && PastPopping(s'.sink) ==> Doomed(s'.sink))
  {
  }

  predicate ControlMovesOnly(c: Control) { !c.StartFails? && !c.Clearing? }

  lemma ControlMoves(s: State, outcome: Outcome)
    requires ControlNext(s, outcome).Some? && ControlMovesOnly(s.control)
    ensures var s' := ControlNext(s, outcome).value;
            && s' == s.(control := s'.control, stop := s'.stop,
                        snap := s.snap.(state := s'.snap.state, queue := s'.snap.queue))
            && (s.stop ==> s'.stop) && (s'.snap.state == Failed ==> s.snap.state == Failed)
            && (s'.control.StartFails? ==> s'.control.recording.Cas?)
  {
    hide Apply, Record;
  }

  // The other steps, spelled out.

  lemma PushShape(s: State, outcome: Outcome, reading: Reading)
    requires s.capture.Pushing? && s.capture.rest != []
    ensures var s', rest := CaptureNext(s, outcome, reading).value, s.capture.rest;
            && CaptureNext(s, outcome, reading).Some?
            && s' == s.(log := Apply(s.log, QUEUE_CAPACITY, DoPush(rest[0])), capture := s'.capture,
                        past := s.past.(emitted := s.past.emitted + [rest[0]]))
            && s'.capture.Counting? && s'.capture.rest == rest[1..]
  {
    hide Apply;
  }

  lemma FinishShape(s: State, outcome: Outcome, reading: Reading)
    requires s.capture.Finishing?
    ensures CaptureNext(s, outcome, reading)
         == Some(s.(capture := CaptureDone, pending := [], log := Apply(s.log, QUEUE_CAPACITY, DoFinish)))
  {
    hide Apply;
  }

  lemma CaptureFailsShape(s: State, outcome: Outcome, reading: Reading)
    requires s.capture.CaptureFails?
    ensures var (after, next) := Record(s, CaptureThread, s.capture.recording);
            CaptureNext(s, outcome, reading) == Some(after.(capture := ResumeCapture(next, s.capture.stopped)))
  {
    hide Record;
  }

  lemma PopShape(s: State, outcome: Outcome)
    requires s.sink.Popping?
    ensures SinkNext(s, outcome)
         == Some(s.(log := Apply(s.log, QUEUE_CAPACITY, DoPop), sink := AfterAnswer(AfterPop(s.log.queue).1)))
  {
    hide Apply, AfterPop;
  }

  lemma WriteShape(s: State, outcome: Outcome)
    requires s.sink.Writing?
    ensures SinkNext(s, outcome) == Some(
      if outcome.Fine? then
        s.(sink := Accepting, sequence := s.sequence + 1,
           past := s.past.(written := s.past.written + [(s.sequence, s.sink.frame)]))
      else
        s.(sink := CountingFailure(outcome.error, ThenClose), past := s.past.(rejected := s.past.rejected + 1)))
  {
  }

  lemma SinkFailsShape(s: State, outcome: Outcome)
    requires s.sink.SinkFails?
    ensures var (after, next) := Record(s, SinkThread, s.sink.recording);
            SinkNext(s, outcome) == Some(after.(sink := ResumeSink(next, s.sink.after)))
  {
    hide Record;
  }

  lemma StartFailsShape(s: State, outcome: Outcome)
    requires s.control.StartFails?
    ensures var (after, next) := Record(s, ControlThread, s.control.recording);
            ControlNext(s, outcome) == Some(after.(control := ResumeStart(next)))
  {
    hide Record;
  }

  lemma ClearShape(s: State, outcome: Outcome)
    requires s.control.Clearing?
    ensures var log := Apply(s.log, QUEUE_CAPACITY, DoClear);
            ControlNext(s, outcome) == Some(s.(log := log, control := Updating(log.queue.metrics, s.control.stopping)))
  {
    hide Apply;
  }

  /** What the failure body of a thread leaves alone. */
  lemma RecordFrame(s: State, t: Thread, r: Recording)
    ensures var s' := Record(s, t, r).0;
            && s'.capture == s.capture && s'.sink == s.sink && s'.control == s.control && s'.pending == s.pending
            && s'.sequence == s.sequence && (s.terminal ==> s'.terminal) && (s.stop ==> s'.stop)
            && s'.past.packets == s.past.packets && s'.past.emitted == s.past.emitted
            && s'.past.written == s.past.written && s'.past.rejected == s.past.rejected
            && s'.snap.accepted == s.snap.accepted && s'.snap.outputFrames == s.snap.outputFrames
            && (s'.snap.state == s.snap.state || s'.snap.state == Failed)
            && s'.snap.queue.discarded == s.snap.queue.discarded
            && s'.log.pushed == s.log.pushed && s'.log.popped == s.log.popped
            && s'.log.queue.producerDone == s.log.queue.producerDone
            && s'.log.queue.metrics.discarded == s.log.queue.metrics.discarded
            && (s.log.queue.frames == [] ==> s'.log.queue.frames == [])
            && (!s'.log.queue.failed ==> s'.log == s.log)
            && (r.Cas? && Record(s, t, r).1.None? ==> s.terminal)
            && (r.Cas? && Record(s, t, r).1.Some? ==> s'.terminal)
  {
  }

  lemma PacketFlow(s: State, p: Packet)
    requires Flow(s) && s.capture.Awaiting? && p.metadata.frames <= PACKET_CAPACITY
    ensures Flow(CaptureReads(s, Received(p)))
  {
    hide Captured, Framing.Feed, Framing.PcmBlock;
    assert s.past.emitted + [] == s.past.emitted;
    CapturedSnoc(s.past.packets, p);
  }

  lemma PushFlow(s: State, outcome: Outcome, reading: Reading)
    requires Flow(s) && s.capture.Pushing? && s.capture.rest != []
    ensures Flow(CaptureNext(s, outcome, reading).value)
  {
    var x, rest := s.capture.rest[0], s.capture.rest[1..];
    PushShape(s, outcome, reading);
    hide CaptureNext, Captured;
    HasEffect(s.log, DoPush(x));
    hide Apply, Capturing;
    assert Capturing(s.capture) by { IsCapturing(s.capture); }
    assert s.capture.rest == [x] + rest;
    assert s.past.emitted + [x] + rest == s.past.emitted + ([x] + rest);
  }

  lemma IsCapturing(c: Capture)
    requires c.Pushing?
    ensures Capturing(c)
  {
  }

  /** Steps that move no frame into the queue. */
  lemma FlowKept(s: State, s': State)
    requires Flow(s) && s'.past.packets == s.past.packets && s'.past.emitted == s.past.emitted
    requires Unpushed(s'.capture) == Unpushed(s.capture)
    requires Capturing(s'.capture) ==> Capturing(s.capture) && s'.pending == s.pending
    requires s'.log.queue.producerDone <==> s'.capture.CaptureDone?
    requires s'.log.pushed == s.log.pushed
    requires !s'.log.queue.failed ==> !s.log.queue.failed && s'.log.cleared == s.log.cleared
    ensures Flow(s')
  {
    hide Captured;
  }

  /** A step of the failure body, after which the threads are where they were as far as frames go. */
  lemma RecordedFlow(s: State, t: Thread, r: Recording, s': State)
    requires Flow(s) && s' == Record(s, t, r).0.(capture := s'.capture, sink := s'.sink, control := s'.control)
    requires s'.capture == s.capture
          || (&& s.capture.CaptureFails?
              && (s'.capture.CaptureFails? || s'.capture.StoppingInput? || s'.capture.Finishing?))
    ensures Flow(s')
  {
    RecordFrame(s, t, r);
    hide Record;
    assert s.log.queue.producerDone <==> s.capture.CaptureDone?;
    hide Flow;
    FlowKept(s, s');
  }

  lemma OtherCaptureFlow(s: State, outcome: Outcome, reading: Reading)
    requires Flow(s) && CaptureNext(s, outcome, reading).Some?
    requires s.capture.Awaiting? ==> !reading.Received? || reading.packet.metadata.frames > PACKET_CAPACITY
    requires s.capture.Pushing? ==> s.capture.rest == []
    ensures Flow(CaptureNext(s, outcome, reading).value)
  {
    assert !s.capture.CaptureDone?;
    hide CaptureNext, Record, Apply, Captured;
    var s' := CaptureNext(s, outcome, reading).value;
    assert s.log.queue.producerDone <==> s.capture.CaptureDone?;
    if CaptureMovesOnly(s.capture) {
      CaptureMoves(s, outcome, reading);
      SameFrames(s, outcome, reading);
      FlowKept(s, s');
    } else {
      if s.capture.CaptureFails? {
        CaptureFailsShape(s, outcome, reading);
        RecordFrame(s, CaptureThread, s.capture.recording);
        RecordedFlow(s, CaptureThread, s.capture.recording, s');
      } else {
        FinishShape(s, outcome, reading);
        HasEffect(s.log, DoFinish);
        FlowKept(s, s');
      }
    }
  }

  lemma SameFrames(s: State, outcome: Outcome, reading: Reading)
    requires CaptureNext(s, outcome, reading).Some? && CaptureMovesOnly(s.capture)
    requires s.capture.Awaiting? ==> !reading.Received? || reading.packet.metadata.frames > PACKET_CAPACITY
    requires s.capture.Pushing? ==> s.capture.rest == []
    ensures var s' := CaptureNext(s, outcome, reading).value;
            && Unpushed(s'.capture) == Unpushed(s.capture) && s'.past.packets == s.past.packets
            && (Capturing(s'.capture) ==> Capturing(s.capture) && s'.pending == s.pending)
  {
    if s.capture.Awaiting? {
      OtherReading(s, reading);
    }
    hide CaptureReads;
  }

  lemma OtherReading(s: State, reading: Reading)
    requires s.capture.Awaiting? && (reading.Received? ==> reading.packet.metadata.frames > PACKET_CAPACITY)
    ensures var s' := CaptureReads(s, reading);
            && (s'.capture.LoopHead? || s'.capture.CaptureFails?)
            && s'.past.packets == s.past.packets && s'.pending == s.pending
  {
    hide Framing.Feed, Framing.PcmBlock;
  }

  lemma CaptureFlow(s: State, outcome: Outcome, reading: Reading)
    requires Flow(s) && CaptureNext(s, outcome, reading).Some?
    ensures Flow(CaptureNext(s, outcome, reading).value)
  {
    hide Flow, Apply, Framing.Feed, Framing.PcmBlock;
    if s.capture.Awaiting? && reading.Received? && reading.packet.metadata.frames <= PACKET_CAPACITY {
      PacketFlow(s, reading.packet);
    } else if s.capture.Pushing? && s.capture.rest != [] {
      PushFlow(s, outcome, reading);
    } else {
      OtherCaptureFlow(s, outcome, reading);
    }
  }

  lemma WriteFlow(s: State, outcome: Outcome)
    requires Flow(s) && s.sink.Writing?
    ensures Flow(SinkNext(s, outcome).value)
  {
    WriteShape(s, outcome);
    hide SinkNext, Captured, Unpushed, Capturing;
  }

  lemma SinkFlow(s: State, outcome: Outcome)
    requires Flow(s) && SinkNext(s, outcome).Some?
    ensures Flow(SinkNext(s, outcome).value)
  {
    hide SinkNext, Record, Apply, Captured, AfterPop, AfterAnswer, ResumeSink;
    var s' := SinkNext(s, outcome).value;
    assert s.log.queue.producerDone <==> s.capture.CaptureDone?;
    if SinkMovesOnly(s.sink) {
      SinkMoves(s, outcome);
      FlowKept(s, s');
    } else if s.sink.SinkFails? {
      SinkFailsShape(s, outcome);
      RecordFrame(s, SinkThread, s.sink.recording);
      RecordedFlow(s, SinkThread, s.sink.recording, s');
    } else if s.sink.Popping? {
      PopShape(s, outcome);
      HasEffect(s.log, DoPop);
      FlowKept(s, s');
    } else {
      WriteFlow(s, outcome);
    }
  }

  lemma ControlFlow(s: State, outcome: Outcome)
    requires Flow(s) && ControlNext(s, outcome).Some?
    requires s.control.Clearing? && !s.log.queue.failed ==> s.log.queue.frames == []
    ensures Flow(ControlNext(s, outcome).value)
  {
    hide ControlNext, Record, Apply, Captured;
    var s' := ControlNext(s, outcome).value;
    assert s.log.queue.producerDone <==> s.capture.CaptureDone?;
    if ControlMovesOnly(s.control) {
      ControlMoves(s, outcome);
      FlowKept(s, s');
    } else if s.control.StartFails? {
      StartFailsShape(s, outcome);
      RecordFrame(s, ControlThread, s.control.recording);
      RecordedFlow(s, ControlThread, s.control.recording, s');
    } else {
      ClearShape(s, outcome);
      HasEffect(s.log, DoClear);
      FlowKept(s, s');
    }
  }

  /** Steps that take no frame and write none. */
  lemma OrderKept(s: State, s': State)
    requires Explained(s.log, QUEUE_CAPACITY) && Explained(s'.log, QUEUE_CAPACITY) && Order(s)
    requires s'.log.popped == s.log.popped && s.log.pushed <= s'.log.pushed && s'.sequence == s.sequence
    requires s'.sink == s.sink
          || (!s.sink.Writing? && !s'.sink.Writing? && (PastPopping(s.sink) ==> PastPopping(s'.sink)))
    requires s'.past.written == s.past.written && s'.past.rejected == s.past.rejected
    ensures Order(s')
  {
  }

  lemma RecordedOrder(s: State, t: Thread, r: Recording, s': State)
    requires Explained(s.log, QUEUE_CAPACITY) && Explained(s'.log, QUEUE_CAPACITY) && Order(s)
    requires s' == Record(s, t, r).0.(capture := s'.capture, sink := s'.sink, control := s'.control)
    requires s'.sink == s.sink || (PastPopping(s.sink) && PastPopping(s'.sink))
    ensures Order(s')
  {
    RecordFrame(s, t, r);
    hide Record, Explained, Order;
    OrderKept(s, s');
  }

  lemma CaptureOrder(s: State, outcome: Outcome, reading: Reading)
    requires Explained(s.log, QUEUE_CAPACITY) && CaptureNext(s, outcome, reading).Some?
    requires Order(s) && Explained(CaptureNext(s, outcome, reading).value.log, QUEUE_CAPACITY)
    ensures Order(CaptureNext(s, outcome, reading).value)
  {
    hide CaptureNext, Record, Apply, Explained, Order, PastPopping;
    var s' := CaptureNext(s, outcome, reading).value;
    if CaptureMovesOnly(s.capture) {
      CaptureMoves(s, outcome, reading);
      OrderKept(s, s');
    } else if s.capture.CaptureFails? {
      CaptureFailsShape(s, outcome, reading);
      RecordFrame(s, CaptureThread, s.capture.recording);
      RecordedOrder(s, CaptureThread, s.capture.recording, s');
    } else if s.capture.Finishing? {
      FinishShape(s, outcome, reading);
      HasEffect(s.log, DoFinish);
      OrderKept(s, s');
    } else {
      PushShape(s, outcome, reading);
      HasEffect(s.log, DoPush(s.capture.rest[0]));
      OrderKept(s, s');
    }
  }

  lemma PopOrder(s: State, outcome: Outcome)
    requires Explained(s.log, QUEUE_CAPACITY) && Order(s) && s.sink.Popping?
    requires Explained(SinkNext(s, outcome).value.log, QUEUE_CAPACITY)
    ensures Order(SinkNext(s, outcome).value)
  {
    HasEffect(s.log, DoPop);
    hide Apply;
  }

  lemma WriteOrder(s: State, outcome: Outcome)
    requires Explained(s.log, QUEUE_CAPACITY) && Order(s) && s.sink.Writing?
    ensures Order(SinkNext(s, outcome).value)
  {
    hide Explained;
  }

  lemma SinkOrder(s: State, outcome: Outcome)
    requires Explained(s.log, QUEUE_CAPACITY) && SinkNext(s, outcome).Some?
    requires Order(s) && Explained(SinkNext(s, outcome).value.log, QUEUE_CAPACITY)
    ensures Order(SinkNext(s, outcome).value)
  {
    hide SinkNext, Record, Apply, Explained, Order;
    var s' := SinkNext(s, outcome).value;
    if SinkMovesOnly(s.sink) {
      SinkMoves(s, outcome);
      OrderKept(s, s');
    } else if s.sink.SinkFails? {
      SinkFailsShape(s, outcome);
      RecordFrame(s, SinkThread, s.sink.recording);
      RecordedOrder(s, SinkThread, s.sink.recording, s');
    } else if s.sink.Popping? {
      PopOrder(s, outcome);
    } else {
      WriteOrder(s, outcome);
    }
  }

  lemma ControlOrder(s: State, outcome: Outcome)
    requires Explained(s.log, QUEUE_CAPACITY) && ControlNext(s, outcome).Some?
    requires Order(s) && Explained(ControlNext(s, outcome).value.log, QUEUE_CAPACITY)
    ensures Order(ControlNext(s, outcome).value)
  {
    hide ControlNext, Record, Apply, Explained, Order, PastPopping;
    var s' := ControlNext(s, outcome).value;
    if ControlMovesOnly(s.control) {
      ControlMoves(s, outcome);
      OrderKept(s, s');
    } else if s.control.StartFails? {
      StartFailsShape(s, outcome);
      RecordFrame(s, ControlThread, s.control.recording);
      RecordedOrder(s, ControlThread, s.control.recording, s');
    } else {
      ClearShape(s, outcome);
      HasEffect(s.log, DoClear);
      OrderKept(s, s');
    }
  }

  /** A step outside the failure body. */
  ghost predicate Quiet(s: State, s': State) {
    && s'.terminal == s.terminal && (s.stop ==> s'.stop) && s'.snap.lastError == s.snap.lastError
    && s'.past.winner == s.past.winner && s'.past.latched == s.past.latched
    && s'.past.writtenAtFail == s.past.writtenAtFail
    && (forall t :: Active(s', t) == Active(s, t))
    && (s'.snap.state == Failed ==> s.snap.state == Failed)
    && s'.log.queue.failed == s.log.queue.failed
    && (s.log.queue.failed ==>
          && (s.log.queue.frames == [] ==> s'.log.queue.frames == [] && s'.log.popped == s.log.popped)
          && |s.past.written| <= |s'.past.written|
          && |s'.past.written| + InFlight(s'.sink) <= |s.past.written| + InFlight(s.sink))
  }

  lemma LatchKept(s: State, s': State)
    requires Latch(s) && Quiet(s, s')
    ensures Latch(s')
  {
    hide Active;
    forall t ensures ActiveIsWinner(s', t) {
      assert ActiveIsWinner(s, t) && Active(s', t) == Active(s, t);
    }
  }

  /** One step of the failure body, run by thread `t`, which then goes on itself. */
  ghost predicate Recorded(s: State, t: Thread, r: Recording, s': State) {
    var recorded := Record(s, t, r);
    && s' == recorded.0.(capture := s'.capture, sink := s'.sink, control := s'.control)
    && Active(s', t) == recorded.1 && (forall u :: u != t ==> Active(s', u) == Active(s, u))
    && InFlight(s'.sink) == InFlight(s.sink)
  }

  lemma CasLatch(s: State, t: Thread, e: EngineError, s': State)
    requires Latch(s) && Active(s, t).None? && Recorded(s, t, Cas(e), s')
    ensures Latch(s')
  {
    hide Active, Apply;
    forall u ensures ActiveIsWinner(s', u) && (!s.terminal ==> Active(s, u).None?) {
      assert ActiveIsWinner(s, u);
    }
    if s.terminal {
      assert Active(s', s.past.winner.value) == Active(s, s.past.winner.value);
    }
  }

  lemma BodyLatch(s: State, t: Thread, r: Recording, s': State)
    requires Latch(s) && !r.Cas? && Active(s, t) == Some(r) && Recorded(s, t, r, s')
    ensures Latch(s')
  {
    assert ActiveIsWinner(s, t);
    HasEffect(s.log, DoFail);
    hide Active, Apply;
    forall u ensures ActiveIsWinner(s', u) {
      assert ActiveIsWinner(s, u);
    }
  }

  lemma RecordLatch(s: State, t: Thread, r: Recording, s': State)
    requires Latch(s) && RecordingOf(s, t) == Some(r) && Recorded(s, t, r, s')
    ensures Latch(s')
  {
    hide Latch, Recorded;
    if r.Cas? {
      CasLatch(s, t, r.error, s');
    } else {
      BodyLatch(s, t, r, s');
    }
  }

  /** A step of `t` is one of the failure body, if `t` is in it, and quiet otherwise. */
  ghost predicate Kind(s: State, t: Thread, s': State) {
    if RecordingOf(s, t).Some? then Recorded(s, t, RecordingOf(s, t).value, s') else Quiet(s, s')
  }

  lemma NextRecording(s: State, t: Thread, r: Recording)
    ensures Record(s, t, r).1.Some? ==> !Record(s, t, r).1.value.Cas?
  {
    hide Apply;
  }

  /** Thread `t` is the only one to move, and not into the middle of the failure body. */
  ghost predicate OnlyMoves(s: State, t: Thread, s': State) {
    && (t != CaptureThread ==> s'.capture == s.capture)
    && (t != SinkThread ==> s'.sink == s.sink)
    && (t != ControlThread ==> s'.control == s.control)
    && RecordingOf(s, t).None? && (RecordingOf(s', t).Some? ==> RecordingOf(s', t).value.Cas?)
  }

  lemma ActiveKept(s: State, t: Thread, s': State)
    requires OnlyMoves(s, t, s')
    ensures forall u :: Active(s', u) == Active(s, u)
  {
  }

  lemma CaptureKind(s: State, outcome: Outcome, reading: Reading)
    requires CaptureNext(s, outcome, reading).Some? && (s.log.queue.failed ==> s.log.queue.frames == [])
    ensures Kind(s, CaptureThread, CaptureNext(s, outcome, reading).value)
  {
    hide CaptureNext, Record, Apply, Active;
    var s', c := CaptureNext(s, outcome, reading).value, s.capture;
    if CaptureMovesOnly(c) {
      CaptureMoves(s, outcome, reading);
      ActiveKept(s, CaptureThread, s');
    } else if c.CaptureFails? {
      CaptureFailsShape(s, outcome, reading);
      CaptureRecords(s, s');
    } else if c.Finishing? {
      FinishShape(s, outcome, reading);
      HasEffect(s.log, DoFinish);
      ActiveKept(s, CaptureThread, s');
    } else {
      PushShape(s, outcome, reading);
      HasEffect(s.log, DoPush(c.rest[0]));
      ActiveKept(s, CaptureThread, s');
    }
  }

  lemma SinkKind(s: State, outcome: Outcome)
    requires SinkNext(s, outcome).Some? && (s.log.queue.failed ==> s.log.queue.frames == [])
    ensures Kind(s, SinkThread, SinkNext(s, outcome).value)
  {
    hide SinkNext, Record, Apply, Active;
    var s', k := SinkNext(s, outcome).value, s.sink;
    if SinkMovesOnly(k) {
      SinkMoves(s, outcome);
      ActiveKept(s, SinkThread, s');
    } else if k.SinkFails? {
      SinkFailsShape(s, outcome);
      SinkRecords(s, s');
    } else if k.Writing? {
      WriteShape(s, outcome);
      ActiveKept(s, SinkThread, s');
    } else {
      PopShape(s, outcome);
      HasEffect(s.log, DoPop);
      assert s.log.queue.failed ==> AfterPop(s.log.queue).1.Finished?;
      hide AfterPop;
      ActiveKept(s, SinkThread, s');
    }
  }

  lemma CaptureRecords(s: State, s': State)
    requires s.capture.CaptureFails?
    requires var (after, next) := Record(s, CaptureThread, s.capture.recording);
             s' == after.(capture := ResumeCapture(next, s.capture.stopped))
    ensures Recorded(s, CaptureThread, s.capture.recording, s')
  {
    NextRecording(s, CaptureThread, s.capture.recording);
    RecordFrame(s, CaptureThread, s.capture.recording);
    hide Record;
  }

  lemma StartRecords(s: State, s': State)
    requires s.control.StartFails?
    requires var (after, next) := Record(s, ControlThread, s.control.recording);
             s' == after.(control := ResumeStart(next))
    ensures Recorded(s, ControlThread, s.control.recording, s')
  {
    NextRecording(s, ControlThread, s.control.recording);
    RecordFrame(s, ControlThread, s.control.recording);
    hide Record;
  }

  lemma SinkRecords(s: State, s': State)
    requires s.sink.SinkFails?
    requires var (after, next) := Record(s, SinkThread, s.sink.recording);
             s' == after.(sink := ResumeSink(next, s.sink.after))
    ensures Recorded(s, SinkThread, s.sink.recording, s')
  {
    NextRecording(s, SinkThread, s.sink.recording);
    RecordFrame(s, SinkThread, s.sink.recording);
    hide Record;
  }

  lemma ControlKind(s: State, outcome: Outcome)
    requires ControlNext(s, outcome).Some? && (s.log.queue.failed ==> s.log.queue.frames == [])
    ensures Kind(s, ControlThread, ControlNext(s, outcome).value)
  {
    hide ControlNext, Record, Apply, Active;
    var s', c := ControlNext(s, outcome).value, s.control;
    if ControlMovesOnly(c) {
      ControlMoves(s, outcome);
      ActiveKept(s, ControlThread, s');
    } else if c.StartFails? {
      StartFailsShape(s, outcome);
      StartRecords(s, s');
    } else {
      ClearShape(s, outcome);
      HasEffect(s.log, DoClear);
      ActiveKept(s, ControlThread, s');
    }
  }

  function ThreadOf(e: Event): Thread {
    match e
    case CaptureStep(_, _) => CaptureThread
    case SinkStep(_) => SinkThread
    case ControlStep(_) => ControlThread
  }

  lemma StepKind(s: State, e: Event)
    requires Latch(s) && Next(s, e).Some?
    ensures Kind(s, ThreadOf(e), Next(s, e).value)
  {
    assert s.log.queue.failed ==> s.log.queue.frames == [];
    hide Latch, Kind;
    match e
    case CaptureStep(outcome, reading) => CaptureKind(s, outcome, reading);
    case SinkStep(outcome) => SinkKind(s, outcome);
    case ControlStep(outcome) => ControlKind(s, outcome);
  }

  lemma StepLatch(s: State, e: Event)
    requires Latch(s) && Next(s, e).Some?
    ensures Latch(Next(s, e).value)
  {
    StepKind(s, e);
    hide Latch, Quiet, Recorded, Next, RecordingOf;
    if RecordingOf(s, ThreadOf(e)).Some? {
      RecordLatch(s, ThreadOf(e), RecordingOf(s, ThreadOf(e)).value, Next(s, e).value);
    } else {
      LatchKept(s, Next(s, e).value);
    }
  }

  /** Steps taken while the capture worker runs that leave the sink and the controller alone. */
  lemma TotalsKept(s: State, s': State)
    requires Totals(s) && !Joined(s.control) && !s.log.queue.producerDone
    requires s'.sink == s.sink && s'.control == s.control && s'.past.written == s.past.written
    requires s'.past.rejected == s.past.rejected && s'.snap.accepted == s.snap.accepted
    requires s.terminal ==> s'.terminal
    requires s'.snap.outputFrames + (if s'.capture.Counting? then 1 else 0) == |s'.past.emitted|
    requires s'.snap.state == s.snap.state || s'.snap.state == Failed
    ensures Totals(s')
  {
  }

  lemma CaptureTotals(s: State, outcome: Outcome, reading: Reading)
    requires Totals(s) && CaptureNext(s, outcome, reading).Some?
    requires s.log.queue.producerDone <==> s.capture.CaptureDone?
    ensures Totals(CaptureNext(s, outcome, reading).value)
  {
    assert !s.capture.CaptureDone?;
    hide CaptureNext, Record, Apply;
    var s' := CaptureNext(s, outcome, reading).value;
    assert !s.log.queue.producerDone && !Joined(s.control);
    assert s.snap.outputFrames + (if s.capture.Counting? then 1 else 0) == |s.past.emitted|;
    if CaptureMovesOnly(s.capture) {
      CaptureMoves(s, outcome, reading);
      TotalsKept(s, s');
    } else if s.capture.CaptureFails? {
      CaptureFailsShape(s, outcome, reading);
      RecordFrame(s, CaptureThread, s.capture.recording);
      TotalsKept(s, s');
    } else if s.capture.Finishing? {
      FinishShape(s, outcome, reading);
      TotalsKept(s, s');
    } else {
      PushShape(s, outcome, reading);
      TotalsKept(s, s');
    }
  }

  lemma SinkTotals(s: State, outcome: Outcome)
    requires Totals(s) && Latch(s) && SinkNext(s, outcome).Some?
    ensures Totals(SinkNext(s, outcome).value)
  {
    var s' := SinkNext(s, outcome).value;
    assert s.log.queue.failed ==> s.terminal;
    hide Latch, Apply, Totals;
    if SinkMovesOnly(s.sink) {
      SinkMoves(s, outcome);
      hide SinkNext, PastPopping, Doomed;
      SinkMovesTotals(s, s');
    } else if s.sink.SinkFails? {
      SinkFailsShape(s, outcome);
      hide SinkNext;
      RecordedTotals(s, s');
    } else if s.sink.Popping? {
      PopShape(s, outcome);
      hide SinkNext;
      PopTotals(s, s');
    } else {
      WriteTotals(s, outcome);
    }
    hide SinkNext, Record, AfterAnswer, AfterPop;
  }

  lemma SinkMovesTotals(s: State, s': State)
    requires Totals(s) && !s.sink.Writing? && !s.sink.SinkDone?
    requires s' == s.(sink := s'.sink,
                      snap := s.snap.(accepted := s'.snap.accepted, sinkFailures := s'.snap.sinkFailures))
    requires !s'.sink.Accepting? && s'.snap.accepted == s.snap.accepted + (if s.sink.Accepting? then 1 else 0)
    requires (PastPopping(s.sink) ==> PastPopping(s'.sink)) && (Doomed(s.sink) ==> Doomed(s'.sink))
    requires !PastPopping(s.sink) && PastPopping(s'.sink) ==> Doomed(s'.sink)
    ensures Totals(s')
  {
  }

  lemma RecordedTotals(s: State, s': State)
    requires Totals(s) && s.sink.SinkFails?
    requires var (after, next) := Record(s, SinkThread, s.sink.recording);
             s' == after.(sink := ResumeSink(next, s.sink.after))
    ensures Totals(s')
  {
    RecordFrame(s, SinkThread, s.sink.recording);
    hide Record;
  }

  lemma PopTotals(s: State, s': State)
    requires Totals(s) && s.sink.Popping? && (s.log.queue.failed ==> s.terminal)
    requires s' == s.(log := Apply(s.log, QUEUE_CAPACITY, DoPop), sink := AfterAnswer(AfterPop(s.log.queue).1))
    ensures Totals(s')
  {
  }

  lemma WriteTotals(s: State, outcome: Outcome)
    requires Totals(s) && s.sink.Writing?
    ensures Totals(SinkNext(s, outcome).value)
  {
  }

  lemma ControlAdvances(s: State, outcome: Outcome)
    requires ControlNext(s, outcome).Some? && ControlMovesOnly(s.control)
    ensures var s', c := ControlNext(s, outcome).value, s.control;
            && (Joined(s'.control) ==> Joined(c) || (s.capture.CaptureDone? && s.sink.SinkDone?))
            && !s'.control.Updating?
            && (s'.control.WritingStopped? || s'.control.ControlDone? ==>
                  && (c.Updating? || c.WritingStopped?)
                  && s'.snap.queue.discarded == if c.Updating? then c.metrics.discarded else s.snap.queue.discarded)
            && (s'.snap.state == Stopped ==> s'.control.ControlDone? || (s.snap.state == Stopped && !c.ControlDone?))
  {
  }

  lemma ControlMovesTotals(s: State, outcome: Outcome)
    requires Totals(s) && ControlNext(s, outcome).Some? && ControlMovesOnly(s.control)
    ensures Totals(ControlNext(s, outcome).value)
  {
    hide ControlNext, PastPopping, Doomed, Joined, ControlMovesOnly;
    ControlMoves(s, outcome);
    ControlAdvances(s, outcome);
    assert s.control.Updating? || s.control.WritingStopped? ==> Joined(s.control) by { UpdatingIsJoined(s.control); }
  }

  lemma UpdatingIsJoined(c: Control)
    ensures c.Updating? || c.WritingStopped? ==> Joined(c)
  {
  }

  lemma ControlTotals(s: State, outcome: Outcome)
    requires Totals(s) && ControlNext(s, outcome).Some?
    ensures Totals(ControlNext(s, outcome).value)
  {
    if ControlMovesOnly(s.control) {
      hide Totals;
      ControlMovesTotals(s, outcome);
    } else if s.control.StartFails? {
      StartFailsShape(s, outcome);
      hide ControlNext;
      RecordFrame(s, ControlThread, s.control.recording);
      hide Record;
      assert Totals(ControlNext(s, outcome).value);
    } else {
      ClearShape(s, outcome);
      hide ControlNext;
      HasEffect(s.log, DoClear);
      hide Apply;
      assert Totals(ControlNext(s, outcome).value);
    }
    hide ControlNext, Totals, Apply;
  }

  lemma StepInv(s: State, e: Event)
    requires Inv(s) && Next(s, e).Some?
    ensures Inv(Next(s, e).value)
  {
    StepQueue(s, e);
    StepLatch(s, e);
    assert s.log.queue.producerDone <==> s.capture.CaptureDone?;
    assert s.control.Clearing? && !s.log.queue.failed ==> s.log.queue.frames == [];
    hide Explained, Flow, Order, Latch, Totals;
    match e
    case CaptureStep(outcome, reading) =>
      CaptureFlow(s, outcome, reading);
      CaptureOrder(s, outcome, reading);
      CaptureTotals(s, outcome, reading);
    case SinkStep(outcome) =>
      SinkFlow(s, outcome);
      SinkOrder(s, outcome);
      SinkTotals(s, outcome);
    case ControlStep(outcome) =>
      ControlFlow(s, outcome);
      ControlOrder(s, outcome);
      ControlTotals(s, outcome);
  }

  lemma {:induction false} ReachableInv(events: seq<Event>)
    requires RunAll(events).Some?
    ensures Inv(RunAll(events).value)
  {
    if events == [] {
      InitialInv();
    } else {
      ReachableInv(events[..|events| - 1]);
      StepInv(RunAll(events[..|events| - 1]).value, events[|events| - 1]);
    }
    hide Inv, Next;
  }

  // ---- What holds in every reachable state ----

  /** `written` takes frames from `source` at strictly increasing positions, numbered without a gap. */
  ghost predicate TakenInOrder(written: seq<(nat, PcmFrame)>, source: seq<PcmFrame>, at: seq<int>) {
    && |at| >= |written| && Increasing(at, |source|)
    && forall k :: 0 <= k < |written| ==> written[k] == (k, source[at[k]])
  }

  /**
   * Whatever the interleaving, the sink accepts frames numbered 0, 1, 2, ... and they are, in order and
   * at most once each, chunks of the sanitised capture stream.
   */
  lemma SinkSequence(events: seq<Event>) returns (at: seq<int>)
    requires RunAll(events).Some?
    ensures var past := RunAll(events).value.past;
            TakenInOrder(past.written, Framing.AllChunks(Framing.Segments(Framing.PcmBlocks(past.packets))), at)
  {
    ReachableInv(events);
    var s := RunAll(events).value;
    Framing.FramesAreSegmentChunks(Framing.PcmBlocks(s.past.packets));
    at := s.log.popped;
    var chunks := Framing.AllChunks(Framing.Segments(Framing.PcmBlocks(s.past.packets)));
    assert chunks == Captured(s.past.packets).frames;
    hide RunAll, Framing.AllChunks, Framing.Segments, Framing.PcmBlocks, Framing.Run, Captured, Latch, Totals;
    assert s.log.pushed <= chunks;
    hide Flow;
    PrefixTaken(s, chunks);
    hide *;
  }

  lemma PrefixTaken(s: State, source: seq<PcmFrame>)
    requires Explained(s.log, QUEUE_CAPACITY) && Order(s) && s.log.pushed <= source
    ensures TakenInOrder(s.past.written, source, s.log.popped)
  {
  }

  /** A run that stopped without a failure accounts for every frame: accepted or counted as discarded. */
  lemma StoppedRunIsConserved(events: seq<Event>)
    requires RunAll(events).Some?
    requires RunAll(events).value.snap.state == Stopped && !RunAll(events).value.terminal
    ensures var s := RunAll(events).value;
            && s.snap.outputFrames == s.snap.accepted + s.snap.queue.discarded
            && s.snap.accepted == |s.past.written| && s.snap.outputFrames == |Captured(s.past.packets).frames|
  {
    ReachableInv(events);
    var s := RunAll(events).value;
    hide RunAll, Captured;
    assert s.control.ControlDone? && s.capture.CaptureDone? && s.sink.SinkDone?;
    assert s.past.emitted + [] == s.past.emitted;
  }

  /** At most one frame reaches the sink after its queue was failed. */
  lemma AtMostOneFrameAfterFailure(events: seq<Event>)
    requires RunAll(events).Some? && RunAll(events).value.log.queue.failed
    ensures var past := RunAll(events).value.past; past.writtenAtFail <= |past.written| <= past.writtenAtFail + 1
  {
    ReachableInv(events);
    hide RunAll;
  }

  lemma OneRecorder(s: State)
    requires Latch(s)
    ensures forall t, u :: Active(s, t).Some? && Active(s, u).Some? ==> t == u
    ensures s.snap.lastError.Some? ==>
      && s.terminal && s.snap.lastError == s.past.latched && s.stop && s.log.queue.failed
      && forall t :: Active(s, t).None?
  {
    hide Active;
    forall t, u | Active(s, t).Some? && Active(s, u).Some? ensures t == u {
      assert ActiveIsWinner(s, t) && ActiveIsWinner(s, u);
    }
    forall t | s.snap.lastError.Some? ensures Active(s, t).None? {
      assert ActiveIsWinner(s, t);
    }
  }

  lemma DoneIsReported(s: State)
    requires Latch(s) && s.terminal && s.control.ControlDone? && s.capture.CaptureDone? && s.sink.SinkDone?
    ensures s.snap.lastError == s.past.latched
  {
    assert forall t :: Active(s, t).None?;
    hide Active;
  }

  /** The reported error is the one that won the latch, and once every thread is through it is reported. */
  lemma FirstErrorIsReported(events: seq<Event>)
    requires RunAll(events).Some?
    ensures var s := RunAll(events).value;
            && (s.snap.lastError.Some? ==>
                  s.snap.lastError == s.past.latched && s.terminal && s.stop && s.log.queue.failed)
            && (s.terminal && s.control.ControlDone? && s.capture.CaptureDone? && s.sink.SinkDone? ==>
                  s.snap.lastError == s.past.latched)
            && (forall t, u :: Active(s, t).Some? && Active(s, u).Some? ==> t == u)
  {
    ReachableInv(events);
    var s := RunAll(events).value;
    hide RunAll, Explained, Flow, Order, Totals, Latch, Active;
    OneRecorder(s);
    if s.terminal && s.control.ControlDone? && s.capture.CaptureDone? && s.sink.SinkDone? {
      DoneIsReported(s);
    }
  }

  /** The failure of `s` is still there in `s'`: first error, report and empty queue. */
  ghost predicate KeepsFailure(s: State, s': State) {
    && (s.terminal ==> s'.terminal && s'.past.latched == s.past.latched && s'.past.winner == s.past.winner)
    && (s.snap.lastError.Some? ==> s'.snap.lastError == s.snap.lastError)
    && (s.log.queue.failed ==> s'.log.queue.failed && s'.log.queue.frames == [] && s'.log.popped == s.log.popped)
  }

  lemma RecordKeepsFailure(s: State, t: Thread, r: Recording, s': State)
    requires Latch(s) && RecordingOf(s, t) == Some(r) && Recorded(s, t, r, s')
    ensures KeepsFailure(s, s')
  {
    OneRecorder(s);
    assert s.snap.lastError.Some? ==> Active(s, t).None?;
    HasEffect(s.log, DoFail);
    assert s.log.queue.failed ==> s.log.queue.frames == [];
    hide Latch, Apply;
  }

  lemma StepKeepsFailure(s: State, e: Event)
    requires Latch(s) && Next(s, e).Some?
    ensures KeepsFailure(s, Next(s, e).value)
  {
    StepKind(s, e);
    assert s.log.queue.failed ==> s.log.queue.frames == [];
    hide Latch, Recorded, Next, RecordingOf;
    if RecordingOf(s, ThreadOf(e)).Some? {
      RecordKeepsFailure(s, ThreadOf(e), RecordingOf(s, ThreadOf(e)).value, Next(s, e).value);
    }
  }

  /** Over any continuation of a run: the first error stays, and a failed queue stays empty. */
  lemma {:induction false} FailureIsLatched(events: seq<Event>, more: seq<Event>)
    requires RunAll(events).Some? && RunAll(events + more).Some? && RunAll(events).value.terminal
    ensures var s, s' := RunAll(events).value, RunAll(events + more).value;
            s'.terminal && KeepsFailure(s, s')
    decreases |more|
  {
    ReachableInv(events);
    if more == [] {
      assert events + more == events;
    } else {
      RunSnoc(events, more);
      FailureIsLatched(events, more[..|more| - 1]);
      ReachableInv(events + more[..|more| - 1]);
      StepKeepsFailure(RunAll(events + more[..|more| - 1]).value, more[|more| - 1]);
    }
    hide Next, Explained, Flow, Order, Totals, RunAll;
  }

  lemma RunSnoc(events: seq<Event>, more: seq<Event>)
    requires more != []
    ensures var before := RunAll(events + more[..|more| - 1]);
            RunAll(events + more) == if before.None? then None else Next(before.value, more[|more| - 1])
  {
    assert (events + more)[..|events + more| - 1] == events + more[..|more| - 1];
    assert (events + more)[|events + more| - 1] == more[|more| - 1];
  }

  // ---- How the sink loop ends ----

  /** How many pops the sink loop can still make once the producer is done. */
  ghost function PopsLeft(s: State): nat { if PastPopping(s.sink) then 0 else |s.log.queue.frames| + 1 }

  predicate IsPop(s: State, e: Event) { e.SinkStep? && s.sink.Popping? }

  /** The pops of the sink loop while the run goes on from `events` through `more`. */
  function PopsTaken(events: seq<Event>, more: seq<Event>): nat {
    if more == [] then 0 else
    var init := more[..|more| - 1];
    var before := RunAll(events + init);
    PopsTaken(events, init) + if before.Some? && IsPop(before.value, more[|more| - 1]) then 1 else 0
  }

  /** The pops of one step fit into what was left, and use it up exactly unless a failure cuts them short. */
  ghost predicate Spends(s: State, pops: nat, s': State) {
    && s'.log.queue.producerDone
    && pops + PopsLeft(s') <= PopsLeft(s)
    && (!s'.terminal && !Doomed(s'.sink) ==> !s.terminal && !Doomed(s.sink) && pops + PopsLeft(s') == PopsLeft(s))
  }

  lemma SinkSpends(s: State, outcome: Outcome)
    requires s.log.queue.producerDone && SinkNext(s, outcome).Some? && (s.log.queue.failed ==> s.log.queue.frames == [])
    requires (s.log.queue.failed || Active(s, SinkThread).Some? ==> s.terminal)
    ensures Spends(s, if s.sink.Popping? then 1 else 0, SinkNext(s, outcome).value)
  {
    hide SinkNext, Apply, Record;
    if SinkMovesOnly(s.sink) {
      SinkMoves(s, outcome);
    } else if s.sink.SinkFails? {
      SinkFailsShape(s, outcome);
      RecordFrame(s, SinkThread, s.sink.recording);
      DeadStaysEmpty(s, SinkThread, s.sink.recording);
    } else if s.sink.Popping? {
      PopShape(s, outcome);
      HasEffect(s.log, DoPop);
    } else {
      WriteShape(s, outcome);
    }
  }

  lemma ControlSpends(s: State, outcome: Outcome)
    requires s.log.queue.producerDone && ControlNext(s, outcome).Some? && (Joined(s.control) ==> s.sink.SinkDone?)
    requires Active(s, ControlThread).Some? ==> s.terminal
    ensures Spends(s, 0, ControlNext(s, outcome).value)
  {
    hide ControlNext, Apply, Record;
    if ControlMovesOnly(s.control) {
      ControlMoves(s, outcome);
    } else if s.control.StartFails? {
      StartFailsShape(s, outcome);
      RecordFrame(s, ControlThread, s.control.recording);
      DeadStaysEmpty(s, ControlThread, s.control.recording);
    } else {
      ClearShape(s, outcome);
      HasEffect(s.log, DoClear);
    }
  }

  lemma DeadStaysEmpty(s: State, t: Thread, r: Recording)
    ensures |Record(s, t, r).0.log.queue.frames| <= |s.log.queue.frames|
  {
    HasEffect(s.log, DoFail);
    hide Apply;
  }

  lemma StepSpends(s: State, e: Event)
    requires Inv(s) && s.log.queue.producerDone && Next(s, e).Some?
    ensures Spends(s, if IsPop(s, e) then 1 else 0, Next(s, e).value)
  {
    assert s.capture.CaptureDone? && (s.log.queue.failed ==> s.terminal && s.log.queue.frames == []);
    assert Joined(s.control) ==> s.sink.SinkDone?;
    assert ActiveIsWinner(s, SinkThread) && ActiveIsWinner(s, ControlThread);
    hide Inv, Active, Spends, SinkNext, ControlNext;
    match e
    case CaptureStep(_, _) =>
    case SinkStep(outcome) => SinkSpends(s, outcome);
    case ControlStep(outcome) => ControlSpends(s, outcome);
  }

  lemma AtMostFour(events: seq<Event>)
    requires RunAll(events).Some?
    ensures |RunAll(events).value.log.queue.frames| <= 4
  {
    ReachableInv(events);
    hide RunAll, Flow, Latch, Totals;
  }

  /**
   * Once the producer is done the sink loop makes at most depth + 1 further pops, whatever the other
   * threads do; in a run without failure it makes exactly those that bring it to its end.
   */
  lemma {:induction false} SinkLoopIsBounded(events: seq<Event>, more: seq<Event>)
    requires RunAll(events).Some? && RunAll(events).value.log.queue.producerDone && RunAll(events + more).Some?
    ensures PopsTaken(events, more) <= |RunAll(events).value.log.queue.frames| + 1 <= 5
    ensures Spends(RunAll(events).value, PopsTaken(events, more), RunAll(events + more).value)
    decreases |more|
  {
    AtMostFour(events);
    if more == [] {
      assert events + more == events;
    } else {
      var init := more[..|more| - 1];
      RunSnoc(events, more);
      SinkLoopIsBounded(events, init);
      ReachableInv(events + init);
      StepSpends(RunAll(events + init).value, more[|more| - 1]);
    }
    hide Next, Inv, RunAll, IsPop, Doomed;
  }

  // ---- How long Failed is shown ----

  /** The two state writes of the controller's stop. */
  predicate StopWrites(s: State, e: Event) { e.ControlStep? && (s.control.Marking? || s.control.WritingStopped?) }

  lemma ReportedRecords(s: State, t: Thread)
    requires Latch(s) && s.snap.lastError.Some? && RecordingOf(s, t).Some?
    ensures Record(s, t, RecordingOf(s, t).value).0 == s
  {
    OneRecorder(s);
    assert Active(s, t).None?;
  }

  lemma ControlState(s: State, outcome: Outcome)
    requires ControlNext(s, outcome).Some? && ControlMovesOnly(s.control) && s.terminal
    ensures ControlNext(s, outcome).value.snap.state
         == if s.control.Marking? then Stopping else if s.control.WritingStopped? then Stopped else s.snap.state
  {
  }

  /** With an error reported, `Failed` is left exactly by the two writes of a stop, and never shown again. */
  lemma FailedIsSticky(s: State, e: Event)
    requires Latch(s) && Next(s, e).Some? && s.snap.lastError.Some?
    ensures Next(s, e).value.snap.state == Failed <==> s.snap.state == Failed && !StopWrites(s, e)
  {
    OneRecorder(s);
    if RecordingOf(s, ThreadOf(e)).Some? {
      ReportedRecords(s, ThreadOf(e));
    }
    hide Latch, Apply, Record, Active;
    match e
    case CaptureStep(outcome, reading) =>
      if CaptureMovesOnly(s.capture) { CaptureMoves(s, outcome, reading); }
    case SinkStep(outcome) =>
      if SinkMovesOnly(s.sink) { SinkMoves(s, outcome); }
    case ControlStep(outcome) =>
      if ControlMovesOnly(s.control) { ControlState(s, outcome); }
    hide CaptureReads, AfterPop;
  }

  /** No stop command writes the state while the run goes on from `events` through `more`. */
  ghost predicate WithoutStop(events: seq<Event>, more: seq<Event>) {
    more == [] ||
    var init := more[..|more| - 1];
    && WithoutStop(events, init) && RunAll(events + init).Some?
    && !StopWrites(RunAll(events + init).value, more[|more| - 1])
  }

  /** From a reachable state that shows `Failed`, a continuation still shows it if and only if no stop wrote. */
  lemma {:induction false} FailedStaysExactly(events: seq<Event>, more: seq<Event>)
    requires RunAll(events).Some? && RunAll(events).value.snap.state == Failed && RunAll(events + more).Some?
    ensures RunAll(events + more).value.snap.state == Failed <==> WithoutStop(events, more)
    decreases |more|
  {
    ReachableInv(events);
    if more == [] {
      assert events + more == events;
    } else {
      var init := more[..|more| - 1];
      RunSnoc(events, more);
      FailedStaysExactly(events, init);
      ReachableInv(events + init);
      FailureIsLatched(events, init);
      FailedIsSticky(RunAll(events + init).value, more[|more| - 1]);
    }
    hide Next, Explained, Flow, Order, Totals, RunAll, StopWrites;
  }

  // ---- What a run reports, told from its events ----

  /** A fault that a thread comes upon: what went wrong outside, where the thread looks. */
  function FaultOf(s: State, e: Event): Option<EngineError> {
    match e
    case CaptureStep(outcome, reading) =>
      if s.capture.Awaiting? && reading.ReadError? then Some(reading.error)
      else if s.capture.Awaiting? && reading.Received? && reading.packet.metadata.frames > 16_384 then
        Some(OVERSIZED_PACKET)
      else if s.capture.StoppingInput? && outcome.Fault? then Some(outcome.error)
      else None
    case SinkStep(outcome) =>
      if outcome.Fault? && (s.sink.Writing? || s.sink.Diagnosing? || s.sink.Closing? || s.sink.FinalDiagnosing?)
      then Some(outcome.error) else None
    case ControlStep(outcome) => if s.control.Waiting? && outcome.Fault? then Some(outcome.error) else None
  }

  function Listed(e: Option<EngineError>): seq<EngineError> { if e.Some? then [e.value] else [] }

  /** The faults that the threads of a run came upon, in order. */
  function Faults(events: seq<Event>): seq<EngineError> {
    if events == [] then [] else
    var init := events[..|events| - 1];
    var before := RunAll(init);
    Faults(init) + if before.Some? then Listed(FaultOf(before.value, events[|events| - 1])) else []
  }

  /** Faults of the sink that count: any but one of the final diagnostics after a failure. */
  predicate CountsSinkFailure(s: State, e: Event) {
    && e.SinkStep?
    && if s.sink.FinalChecking? then !s.terminal
       else e.outcome.Fault? && (s.sink.Writing? || s.sink.Diagnosing? || s.sink.Closing?)
  }

  function SinkFaults(events: seq<Event>): nat {
    if events == [] then 0 else
    var init := events[..|events| - 1];
    var before := RunAll(init);
    SinkFaults(init) + if before.Some? && CountsSinkFailure(before.value, events[|events| - 1]) then 1 else 0
  }

  /** The error that a thread carries towards the latch or through the failure body. */
  function Carries(s: State, t: Thread): Option<EngineError> {
    match t
    case CaptureThread =>
      (match s.capture
       case CaptureFails(r, _) => Some(r.error)
       case CheckingTerminal(e) => Some(e)
       case _ => None)
    case SinkThread =>
      (match s.sink
       case CountingFailure(e, _) => Some(e)
       case SinkFails(r, _) => Some(r.error)
       case FinalChecking(e) => Some(e)
       case _ => None)
    case ControlThread => if s.control.StartFails? then Some(s.control.recording.error) else None
  }

  ghost predicate Known(e: Option<EngineError>, faults: seq<EngineError>) { e.Some? ==> e.value in faults }

  /** Everything carried and latched is a fault that happened; and if one happened, one is carried or latched. */
  ghost predicate FaultsTold(s: State, faults: seq<EngineError>) {
    && (forall t :: Known(Carries(s, t), faults)) && Known(s.past.latched, faults)
    && (s.terminal <==> s.past.latched.Some?)
    && (faults != [] ==> s.terminal || exists t :: Carries(s, t).Some?)
  }

  /** What thread `t` does with its errors in one step; the other threads carry what they did. */
  ghost predicate StepTells(s: State, t: Thread, fault: Option<EngineError>, s': State) {
    && (forall u :: u != t ==> Carries(s', u) == Carries(s, u))
    && (Carries(s', t).Some? ==> Carries(s', t) == Carries(s, t) || Carries(s', t) == fault)
    && (s'.past.latched.Some? ==> s'.past.latched == s.past.latched || s'.past.latched == Carries(s, t))
    && (s'.terminal <==> s'.past.latched.Some?) && (s.terminal ==> s'.terminal)
    && (Carries(s, t).Some? || fault.Some? ==> s'.terminal || Carries(s', t).Some?)
  }

  /** The other threads carry what they did if they did not move. */
  lemma OthersCarry(s: State, t: Thread, s': State)
    requires t != CaptureThread ==> s'.capture == s.capture
    requires t != SinkThread ==> s'.sink == s.sink
    requires t != ControlThread ==> s'.control == s.control
    ensures forall u :: u != t ==> Carries(s', u) == Carries(s, u)
  {
  }

  /** A step of the failure body latches its own error, or has lost, and goes on with the same error. */
  lemma RecordTells(s: State, t: Thread, r: Recording)
    requires (s.terminal <==> s.past.latched.Some?) && (!r.Cas? ==> s.terminal)
    ensures var (s', next) := Record(s, t, r);
            && s'.terminal && s'.past.latched.Some?
            && (s'.past.latched == s.past.latched || s'.past.latched == Some(r.error))
            && (next.Some? ==> next.value.error == r.error)
            && s'.capture == s.capture && s'.sink == s.sink && s'.control == s.control
  {
    hide Apply;
  }

  lemma ReadTells(s: State, reading: Reading)
    requires s.capture.Awaiting?
    ensures var (s', fault) := (CaptureReads(s, reading), FaultOf(s, CaptureStep(Fine, reading)));
            && s'.sink == s.sink && s'.control == s.control && s'.terminal == s.terminal
            && s'.past.latched == s.past.latched && Carries(s', CaptureThread) == fault
  {
    hide Framing.Feed, Framing.PcmBlock;
  }

  lemma CaptureTells(s: State, outcome: Outcome, reading: Reading)
    requires CaptureNext(s, outcome, reading).Some? && (s.terminal <==> s.past.latched.Some?)
    requires Active(s, CaptureThread).Some? ==> s.terminal
    ensures StepTells(s, CaptureThread, FaultOf(s, CaptureStep(outcome, reading)),
                      CaptureNext(s, outcome, reading).value)
  {
    var s' := CaptureNext(s, outcome, reading).value;
    if s.capture.CaptureFails? {
      CaptureFailsShape(s, outcome, reading);
      RecordTells(s, CaptureThread, s.capture.recording);
      hide Record, CaptureNext;
      OthersCarry(s, CaptureThread, s');
    } else if s.capture.Awaiting? {
      ReadTells(s, reading);
      assert s' == CaptureReads(s, reading);
      hide CaptureNext, CaptureReads;
      OthersCarry(s, CaptureThread, s');
    } else {
      CaptureQuietTells(s, outcome, reading);
    }
    hide CaptureNext, StepTells;
  }

  lemma CaptureQuietTells(s: State, outcome: Outcome, reading: Reading)
    requires CaptureNext(s, outcome, reading).Some? && (s.terminal <==> s.past.latched.Some?)
    requires !s.capture.CaptureFails? && !s.capture.Awaiting?
    ensures StepTells(s, CaptureThread, FaultOf(s, CaptureStep(outcome, reading)),
                      CaptureNext(s, outcome, reading).value)
  {
    hide Apply, CaptureReads, Record;
    OthersCarry(s, CaptureThread, CaptureNext(s, outcome, reading).value);
  }

  lemma SinkTells(s: State, outcome: Outcome)
    requires SinkNext(s, outcome).Some? && (s.terminal <==> s.past.latched.Some?)
    requires Active(s, SinkThread).Some? ==> s.terminal
    ensures StepTells(s, SinkThread, FaultOf(s, SinkStep(outcome)), SinkNext(s, outcome).value)
  {
    var s' := SinkNext(s, outcome).value;
    if s.sink.SinkFails? {
      SinkFailsShape(s, outcome);
      RecordTells(s, SinkThread, s.sink.recording);
      hide Record, SinkNext;
      OthersCarry(s, SinkThread, s');
    } else {
      SinkQuietTells(s, outcome);
    }
    hide SinkNext, StepTells;
  }

  lemma SinkQuietTells(s: State, outcome: Outcome)
    requires SinkNext(s, outcome).Some? && (s.terminal <==> s.past.latched.Some?) && !s.sink.SinkFails?
    ensures StepTells(s, SinkThread, FaultOf(s, SinkStep(outcome)), SinkNext(s, outcome).value)
  {
    hide Apply, AfterPop, Record;
    OthersCarry(s, SinkThread, SinkNext(s, outcome).value);
  }

  lemma ControlTells(s: State, outcome: Outcome)
    requires ControlNext(s, outcome).Some? && (s.terminal <==> s.past.latched.Some?)
    requires Active(s, ControlThread).Some? ==> s.terminal
    ensures StepTells(s, ControlThread, FaultOf(s, ControlStep(outcome)), ControlNext(s, outcome).value)
  {
    var s' := ControlNext(s, outcome).value;
    if s.control.StartFails? {
      StartFailsShape(s, outcome);
      RecordTells(s, ControlThread, s.control.recording);
      hide Record, ControlNext;
      OthersCarry(s, ControlThread, s');
    } else {
      ControlQuietTells(s, outcome);
    }
    hide ControlNext, StepTells;
  }

  lemma ControlQuietTells(s: State, outcome: Outcome)
    requires ControlNext(s, outcome).Some? && (s.terminal <==> s.past.latched.Some?) && !s.control.StartFails?
    ensures StepTells(s, ControlThread, FaultOf(s, ControlStep(outcome)), ControlNext(s, outcome).value)
  {
    hide Apply, Record;
    OthersCarry(s, ControlThread, ControlNext(s, outcome).value);
  }

  lemma ToldStep(s: State, t: Thread, fault: Option<EngineError>, s': State, faults: seq<EngineError>)
    requires FaultsTold(s, faults) && StepTells(s, t, fault, s')
    ensures FaultsTold(s', faults + Listed(fault))
  {
    hide Carries;
    forall u ensures Known(Carries(s', u), faults + Listed(fault)) {
      assert Known(Carries(s, u), faults) && Known(Carries(s, t), faults);
    }
    assert Known(Carries(s, t), faults);
    if faults != [] && !s.terminal {
      var u :| Carries(s, u).Some?;
      assert s'.terminal || Carries(s', u).Some?;
    }
  }

  lemma LatchedIsTerminal(s: State, t: Thread)
    requires Latch(s)
    ensures (s.terminal <==> s.past.latched.Some?) && (Active(s, t).Some? ==> s.terminal)
    ensures s.snap.lastError.Some? ==> s.terminal
  {
    assert ActiveIsWinner(s, t);
    hide Active;
  }

  lemma NextTells(s: State, e: Event)
    requires Latch(s) && Next(s, e).Some?
    ensures StepTells(s, ThreadOf(e), FaultOf(s, e), Next(s, e).value)
  {
    hide Latch, StepTells, CaptureNext, SinkNext, ControlNext, Active, FaultOf;
    LatchedIsTerminal(s, ThreadOf(e));
    match e
    case CaptureStep(outcome, reading) => CaptureTells(s, outcome, reading);
    case SinkStep(outcome) => SinkTells(s, outcome);
    case ControlStep(outcome) => ControlTells(s, outcome);
  }

  lemma {:induction false} FaultsAreTold(events: seq<Event>)
    requires RunAll(events).Some?
    ensures FaultsTold(RunAll(events).value, Faults(events))
  {
    if events == [] {
      NothingTold();
    } else {
      var init, e := events[..|events| - 1], events[|events| - 1];
      var s := RunAll(init).value;
      FaultsAreTold(init);
      ReachableInv(init);
      hide Explained, Flow, Order, Latch, Totals, FaultsTold, StepTells, Next, FaultOf;
      NextTells(s, e);
      ToldStep(s, ThreadOf(e), FaultOf(s, e), Next(s, e).value, Faults(init));
    }
    hide Next, FaultOf, FaultsTold;
  }

  lemma NothingTold()
    ensures FaultsTold(INITIAL, [])
  {
    assert forall t :: Carries(INITIAL, t).None?;
  }

  lemma DoneCarriesNothing(s: State)
    requires s.control.ControlDone? && s.capture.CaptureDone? && s.sink.SinkDone?
    ensures forall t :: Carries(s, t).None?
  {
  }

  /**
   * A run that is over reports an error if and only if one of its threads came upon a fault, and what it
   * reports is one of the faults.
   */
  lemma FailsExactlyOnFault(events: seq<Event>)
    requires RunAll(events).Some?
    requires var s := RunAll(events).value; s.control.ControlDone? && s.capture.CaptureDone? && s.sink.SinkDone?
    ensures var s := RunAll(events).value;
            && (s.snap.lastError.Some? <==> Faults(events) != [])
            && (s.snap.lastError.Some? ==> s.snap.lastError.value in Faults(events))
  {
    ReachableInv(events);
    FaultsAreTold(events);
    var s := RunAll(events).value;
    hide RunAll, Explained, Flow, Order, Totals, Latch, Faults, Carries;
    OneRecorder(s);
    DoneCarriesNothing(s);
    if s.terminal {
      DoneIsReported(s);
    }
  }

  /** The sink failures shown are those counted, and no packet beyond the capacity was ever used. */
  ghost predicate Accounted(s: State, sinkFaults: nat) {
    && s.snap.sinkFailures + (if s.sink.CountingFailure? then 1 else 0) == sinkFaults
    && forall p :: p in s.past.packets ==> p.metadata.frames <= 16_384
  }

  lemma ReadAccounts(s: State, reading: Reading, n: nat)
    requires Accounted(s, n) && s.capture.Awaiting?
    ensures Accounted(CaptureReads(s, reading), n)
  {
    hide Framing.Feed, Framing.PcmBlock;
  }

  lemma CaptureAccounts(s: State, outcome: Outcome, reading: Reading, n: nat)
    requires Accounted(s, n) && CaptureNext(s, outcome, reading).Some?
    ensures Accounted(CaptureNext(s, outcome, reading).value, n)
  {
    hide Apply, CaptureReads;
    if s.capture.Awaiting? {
      ReadAccounts(s, reading, n);
    } else if s.capture.CaptureFails? {
      RecordFrame(s, CaptureThread, s.capture.recording);
      hide Record;
    }
  }

  lemma SinkAccounts(s: State, outcome: Outcome, n: nat)
    requires Accounted(s, n) && SinkNext(s, outcome).Some?
    ensures Accounted(SinkNext(s, outcome).value, n + if CountsSinkFailure(s, SinkStep(outcome)) then 1 else 0)
  {
    hide Apply, AfterPop;
    if s.sink.SinkFails? {
      SinkFailsShape(s, outcome);
      RecordFrame(s, SinkThread, s.sink.recording);
      hide SinkNext, Record;
    }
  }

  lemma ControlAccounts(s: State, outcome: Outcome, n: nat)
    requires Accounted(s, n) && ControlNext(s, outcome).Some?
    ensures Accounted(ControlNext(s, outcome).value, n)
  {
    hide Apply;
  }

  /** In every reachable state: sink failures are counted exactly, and packets used fit the capacity. */
  lemma {:induction false} SinkFailuresAreCounted(events: seq<Event>)
    requires RunAll(events).Some?
    ensures Accounted(RunAll(events).value, SinkFaults(events))
  {
    if events != [] {
      var init, e := events[..|events| - 1], events[|events| - 1];
      var s := RunAll(init).value;
      SinkFailuresAreCounted(init);
      hide Accounted, CaptureNext, SinkNext, ControlNext;
      match e
      case CaptureStep(outcome, reading) => CaptureAccounts(s, outcome, reading, SinkFaults(init));
      case SinkStep(outcome) => SinkAccounts(s, outcome, SinkFaults(init));
      case ControlStep(outcome) => ControlAccounts(s, outcome, SinkFaults(init));
    }
    hide CaptureNext, SinkNext, ControlNext, CountsSinkFailure;
  }

  /** How often the sink worker fetched diagnostics inside its loop. */
  function Diagnoses(events: seq<Event>): nat {
    if events == [] then 0 else
    var init := events[..|events| - 1];
    var before := RunAll(init);
    Diagnoses(init) + if before.Some? && events[|events| - 1].SinkStep? && before.value.sink.Diagnosing? then 1 else 0
  }

  ghost predicate Diagnosed(s: State, n: nat) {
    && (s.sink.Accepting? ==> s.sequence > 0)
    && n + (if s.sink.Diagnosing? then 1 else 0) == (s.sequence - (if s.sink.Accepting? then 1 else 0)) / 100
  }

  lemma SinkDiagnoses(s: State, outcome: Outcome, n: nat)
    requires Diagnosed(s, n) && SinkNext(s, outcome).Some?
    ensures Diagnosed(SinkNext(s, outcome).value, n + if s.sink.Diagnosing? then 1 else 0)
  {
    hide Apply, AfterPop;
    if s.sink.SinkFails? {
      SinkFailsShape(s, outcome);
      RecordFrame(s, SinkThread, s.sink.recording);
      hide SinkNext, Record;
    }
  }

  lemma CaptureDiagnoses(s: State, outcome: Outcome, reading: Reading)
    requires CaptureNext(s, outcome, reading).Some?
    ensures var s' := CaptureNext(s, outcome, reading).value; s'.sink == s.sink && s'.sequence == s.sequence
  {
    hide Apply, Framing.Feed, Framing.PcmBlock;
  }

  lemma ControlDiagnoses(s: State, outcome: Outcome)
    requires ControlNext(s, outcome).Some?
    ensures var s' := ControlNext(s, outcome).value; s'.sink == s.sink && s'.sequence == s.sequence
  {
    hide Apply;
  }

  /** Diagnostics are fetched after every hundredth frame accepted, and at no other time inside the loop. */
  lemma {:induction false} DiagnosesEveryHundred(events: seq<Event>)
    requires RunAll(events).Some?
    ensures Diagnosed(RunAll(events).value, Diagnoses(events))
  {
    if events != [] {
      var init, e := events[..|events| - 1], events[|events| - 1];
      var s := RunAll(init).value;
      DiagnosesEveryHundred(init);
      hide CaptureNext, SinkNext, ControlNext;
      match e
      case CaptureStep(outcome, reading) => CaptureDiagnoses(s, outcome, reading);
      case SinkStep(outcome) => SinkDiagnoses(s, outcome, Diagnoses(init));
      case ControlStep(outcome) => ControlDiagnoses(s, outcome);
    }
    hide CaptureNext, SinkNext, ControlNext;
  }

  /** The state shown, by how far the controller has come and whether a failure was published. */
  ghost predicate ShownIs(s: State) {
    var reported, shown := s.snap.lastError.Some?, s.snap.state;
    match s.control
    case Waiting => shown == if reported then Failed else Starting
    case StartFails(_) => shown == if reported then Failed else Starting
    case Idle => if reported then shown == Failed else shown == RunningBypass || (s.terminal && shown == Starting)
    case Marking => if reported then shown == Failed else shown == RunningBypass || (s.terminal && shown == Starting)
    case Raising(stopping) => Stops(reported, shown, stopping)
    case Joining(stopping) => Stops(reported, shown, stopping)
    case Clearing(stopping) => Stops(reported, shown, stopping)
    case Updating(_, stopping) => Stops(reported, shown, stopping)
    case WritingStopped => Stops(reported, shown, true)
    case ControlDone => shown == Stopped || Stops(reported, shown, false)
  }

  ghost predicate Stops(reported: bool, shown: EngineState, stopping: bool) {
    if !stopping then shown == if reported then Failed else Starting
    else if reported then shown == Failed || shown == Stopping
    else shown == Stopping
  }

  lemma ShownByOthers(s: State, s': State)
    requires ShownIs(s) && s'.control == s.control && (s.terminal ==> s'.terminal)
    requires (s'.snap.state == s.snap.state && s'.snap.lastError == s.snap.lastError)
          || (s'.snap.state == Failed && s'.snap.lastError.Some? && !s.control.ControlDone?)
    ensures ShownIs(s')
  {
  }

  lemma ControlShows(s: State, outcome: Outcome)
    requires ShownIs(s) && ControlNext(s, outcome).Some? && (s.snap.lastError.Some? ==> s.terminal)
    ensures ShownIs(ControlNext(s, outcome).value)
  {
    if s.control.StartFails? {
      StartFailsShape(s, outcome);
      RecordShows(s, ControlThread, s.control.recording);
      hide ControlNext, Record;
      assert ShownIs(ControlNext(s, outcome).value);
    } else {
      ControlShowsQuietly(s, outcome);
    }
    hide ControlNext, ShownIs;
  }

  lemma ControlShowsQuietly(s: State, outcome: Outcome)
    requires ShownIs(s) && ControlNext(s, outcome).Some? && (s.snap.lastError.Some? ==> s.terminal)
    requires !s.control.StartFails?
    ensures ShownIs(ControlNext(s, outcome).value)
  {
    hide Apply, Record;
  }

  lemma RecordShows(s: State, t: Thread, r: Recording)
    ensures var s' := Record(s, t, r).0;
            if r.Publish? then s'.snap.state == Failed && s'.snap.lastError.Some?
            else s'.snap.state == s.snap.state && s'.snap.lastError == s.snap.lastError
  {
  }

  lemma CaptureShows(s: State, outcome: Outcome, reading: Reading)
    requires Inv(s) && ShownIs(s) && CaptureNext(s, outcome, reading).Some?
    ensures ShownIs(CaptureNext(s, outcome, reading).value)
  {
    assert s.control.ControlDone? ==> s.capture.CaptureDone?;
    var s' := CaptureNext(s, outcome, reading).value;
    hide Inv, ShownIs, Apply, Record;
    if CaptureMovesOnly(s.capture) {
      CaptureMoves(s, outcome, reading);
    } else if s.capture.CaptureFails? {
      RecordShows(s, CaptureThread, s.capture.recording);
      RecordFrame(s, CaptureThread, s.capture.recording);
    }
    ShownByOthers(s, s');
  }

  lemma SinkShows(s: State, outcome: Outcome)
    requires Inv(s) && ShownIs(s) && SinkNext(s, outcome).Some?
    ensures ShownIs(SinkNext(s, outcome).value)
  {
    assert s.control.ControlDone? ==> s.sink.SinkDone?;
    var s' := SinkNext(s, outcome).value;
    hide Inv, ShownIs, Apply, Record;
    if SinkMovesOnly(s.sink) {
      SinkMoves(s, outcome);
    } else if s.sink.SinkFails? {
      RecordShows(s, SinkThread, s.sink.recording);
      RecordFrame(s, SinkThread, s.sink.recording);
    }
    ShownByOthers(s, s');
  }

  /** In every reachable state the engine shows what its controller and its latch have come to. */
  lemma {:induction false} ShownIsExact(events: seq<Event>)
    requires RunAll(events).Some?
    ensures ShownIs(RunAll(events).value)
  {
    if events != [] {
      var init, e := events[..|events| - 1], events[|events| - 1];
      var s := RunAll(init).value;
      ShownIsExact(init);
      ReachableInv(init);
      LatchedIsTerminal(s, ControlThread);
      hide ShownIs, Inv, CaptureNext, SinkNext, ControlNext;
      match e
      case CaptureStep(outcome, reading) => CaptureShows(s, outcome, reading);
      case SinkStep(outcome) => SinkShows(s, outcome);
      case ControlStep(outcome) => ControlShows(s, outcome);
    }
    hide Inv, CaptureNext, SinkNext, ControlNext;
  }

  // ---- Cleaning up ----

  predicate OpensSource(s: State, e: Event) { e.CaptureStep? && s.capture.Opening? && e.outcome.Fine? }

  predicate StopsSource(s: State, e: Event) { e.CaptureStep? && s.capture.StoppingInput? }

  predicate ClosesSession(s: State, e: Event) { e.SinkStep? && s.sink.Closing? }

  /** How many events of a run did something. */
  function Times(p: (State, Event) -> bool, events: seq<Event>): nat {
    if events == [] then 0 else
    var init := events[..|events| - 1];
    var before := RunAll(init);
    Times(p, init) + if before.Some? && p(before.value, events[|events| - 1]) then 1 else 0
  }

  predicate HasSource(c: Capture) {
    c.LoopHead? || c.Awaiting? || c.Pushing? || c.Counting? || c.StoppingInput? || (c.CaptureFails? && !c.stopped)
  }

  predicate HasSession(k: Sink) {
    || k.Popping? || k.Writing? || k.Accepting? || k.Diagnosing? || k.Closing?
    || ((k.CountingFailure? || k.SinkFails?) && k.after.ThenClose?)
  }

  function Held(yes: bool): nat { if yes then 1 else 0 }

  lemma CaptureReleases(s: State, outcome: Outcome, reading: Reading)
    requires CaptureNext(s, outcome, reading).Some?
    ensures var s', e := CaptureNext(s, outcome, reading).value, CaptureStep(outcome, reading);
            && s'.sink == s.sink && !s'.capture.Opening?
            && Held(HasSource(s'.capture)) + Held(StopsSource(s, e))
               == Held(HasSource(s.capture)) + Held(OpensSource(s, e))
  {
    hide Apply, Framing.Feed, Framing.PcmBlock, Record;
    if s.capture.CaptureFails? {
      CaptureFailsShape(s, outcome, reading);
      RecordFrame(s, CaptureThread, s.capture.recording);
      hide CaptureNext;
    }
  }

  lemma SinkReleases(s: State, outcome: Outcome)
    requires SinkNext(s, outcome).Some?
    ensures var s' := SinkNext(s, outcome).value;
            s'.capture == s.capture
            && Held(HasSession(s'.sink)) + Held(ClosesSession(s, SinkStep(outcome))) == Held(HasSession(s.sink))
  {
    hide Apply, AfterPop, Record;
    if s.sink.SinkFails? {
      SinkFailsShape(s, outcome);
      RecordFrame(s, SinkThread, s.sink.recording);
      hide SinkNext;
    }
  }

  lemma ControlReleases(s: State, outcome: Outcome)
    requires ControlNext(s, outcome).Some?
    ensures var s' := ControlNext(s, outcome).value; s'.capture == s.capture && s'.sink == s.sink
  {
    hide Apply;
  }

  /**
   * Whatever fails and whoever stops: the source is stopped exactly once if it was opened, and the sink's session
   * is closed exactly once; neither is released before its worker is through with it.
   */
  lemma {:induction false} ResourcesAreReleased(events: seq<Event>)
    requires RunAll(events).Some?
    ensures var s := RunAll(events).value;
            && Times(OpensSource, events) == Times(StopsSource, events) + Held(HasSource(s.capture))
            && Times(OpensSource, events) <= 1 && (s.capture.Opening? ==> Times(OpensSource, events) == 0)
            && Times(ClosesSession, events) + Held(HasSession(s.sink)) == 1
  {
    if events != [] {
      var init, e := events[..|events| - 1], events[|events| - 1];
      var s := RunAll(init).value;
      ResourcesAreReleased(init);
      hide CaptureNext, SinkNext, ControlNext, HasSource, HasSession;
      match e
      case CaptureStep(outcome, reading) => CaptureReleases(s, outcome, reading);
      case SinkStep(outcome) => SinkReleases(s, outcome);
      case ControlStep(outcome) => ControlReleases(s, outcome);
    }
    hide CaptureNext, SinkNext, ControlNext;
  }

  // ---- The queue metrics shown ----

  predicate SameTotals(a: Metrics, b: Metrics) {
    a.highWater == b.highWater && a.overflows == b.overflows && a.discarded == b.discarded
  }

  /** The totals shown are the queue's, but for the push that is being counted; in the end no frame is shown queued. */
  ghost predicate MetricsShown(s: State) {
    && SameTotals(if s.capture.Counting? then s.capture.metrics else s.snap.queue, s.log.queue.metrics)
    && (s.control.Updating? ==> s.control.metrics.depth == 0 && SameTotals(s.control.metrics, s.log.queue.metrics))
    && (s.control.WritingStopped? || s.control.ControlDone? ==> s.snap.queue.depth == 0)
  }

  lemma TotalsStay(l: Logged<PcmFrame>, op: Op<PcmFrame>)
    requires !op.DoPush?
    ensures SameTotals(Apply(l, QUEUE_CAPACITY, op).queue.metrics, l.queue.metrics)
    ensures op.DoClear? ==> Apply(l, QUEUE_CAPACITY, op).queue.metrics.depth == 0
  {
  }

  lemma RecordMetrics(s: State, t: Thread, r: Recording)
    ensures var s' := Record(s, t, r).0;
            && SameTotals(s'.log.queue.metrics, s.log.queue.metrics) && SameTotals(s'.snap.queue, s.snap.queue)
            && (s'.snap.queue.depth == s.snap.queue.depth || s'.snap.queue.depth == 0)
  {
    TotalsStay(s.log, DoFail);
    hide Apply;
  }

  lemma CaptureMetrics(s: State, outcome: Outcome, reading: Reading)
    requires MetricsShown(s) && CaptureNext(s, outcome, reading).Some? && (Joined(s.control) ==> s.capture.CaptureDone?)
    ensures MetricsShown(CaptureNext(s, outcome, reading).value)
  {
    hide Apply, Framing.Feed, Framing.PcmBlock, Record;
    TotalsStay(s.log, DoFinish);
    if s.capture.CaptureFails? {
      CaptureFailsShape(s, outcome, reading);
      RecordFrame(s, CaptureThread, s.capture.recording);
      RecordMetrics(s, CaptureThread, s.capture.recording);
      hide CaptureNext;
    } else if s.capture.Awaiting? {
      ReadMoves(s, reading);
      hide CaptureReads;
    }
  }

  lemma SinkMetrics(s: State, outcome: Outcome)
    requires MetricsShown(s) && SinkNext(s, outcome).Some?
    ensures MetricsShown(SinkNext(s, outcome).value)
  {
    hide Apply, AfterPop, Record;
    TotalsStay(s.log, DoPop);
    if s.sink.SinkFails? {
      SinkFailsShape(s, outcome);
      RecordFrame(s, SinkThread, s.sink.recording);
      RecordMetrics(s, SinkThread, s.sink.recording);
      hide SinkNext;
    }
  }

  lemma ControlMetrics(s: State, outcome: Outcome)
    requires MetricsShown(s) && ControlNext(s, outcome).Some? && (Joined(s.control) ==> s.capture.CaptureDone?)
    ensures MetricsShown(ControlNext(s, outcome).value)
  {
    hide Apply, Record;
    TotalsStay(s.log, DoClear);
    if s.control.StartFails? {
      StartFailsShape(s, outcome);
      RecordFrame(s, ControlThread, s.control.recording);
      RecordMetrics(s, ControlThread, s.control.recording);
      hide ControlNext;
    }
  }

  /** In every reachable state the queue metrics shown are those of the queue itself. */
  lemma {:induction false} MetricsAreShown(events: seq<Event>)
    requires RunAll(events).Some?
    ensures MetricsShown(RunAll(events).value)
  {
    if events != [] {
      var init, e := events[..|events| - 1], events[|events| - 1];
      var s := RunAll(init).value;
      MetricsAreShown(init);
      ReachableInv(init);
      assert Totals(s);
      hide Inv, MetricsShown, CaptureNext, SinkNext, ControlNext;
      match e
      case CaptureStep(outcome, reading) => CaptureMetrics(s, outcome, reading);
      case SinkStep(outcome) => SinkMetrics(s, outcome);
      case ControlStep(outcome) => ControlMetrics(s, outcome);
    }
    hide CaptureNext, SinkNext, ControlNext, Inv;
  }
}
