/**
 * An AEC run of crates/mini-aec-engine/src/runtime.rs as interleaved threads: two input workers, the
 * processing worker and the controller. What the processing worker computes is the subject of AecLoop;
 * here it may do anything its code allows between two accesses to shared state.
 */
module AecProtocol {
  import opened AudioTypes
  import opened EngineTypes
  import opened LatestWins
  import opened TimedFraming

  datatype Thread = MicrophoneThread | RenderThread | ProcessingThread | ControlThread

  /** Where a thread is inside `record_aec_failure`. */
  datatype Recording =
    | Cas(error: EngineError)
    | Raise(error: EngineError)
    | FailFirst(error: EngineError)
    | FailSecond(error: EngineError)
    | Publish(error: EngineError)

  datatype Input =
    | Opening
    | LoopHead
    | Awaiting
    | Pushing(rest: seq<TimedFrame>)
    | Counting(rest: seq<TimedFrame>)
    | InputFails(recording: Recording, stopped: bool)
    | StoppingInput
    | CheckingTerminal(error: EngineError)
    | Finishing
    | InputDone

  datatype Processing =
    | FirstMicrophone
    | FirstRender(frame: TimedFrame)
    | ProcessingHead(first: Option<TimedFrame>)
    | PoppingMicrophone
    | Selecting(frame: TimedFrame)
    | Cancelling(frame: TimedFrame)
    | Writing(frame: TimedFrame)
    | Accepting
    | Diagnosing
    | ProcessingFails(recording: Recording, closed: bool)
    | Closing
    | CheckingClose(error: EngineError)
    | ProcessingDone

  datatype Control =
    | Waiting
    | StartFails(recording: Recording)
    | Idle
    | Marking
    | Raising(stopping: bool)
    | Joining(stopping: bool)
    | WritingStopped
    | ControlDone

  /** An input worker with its accumulator and its queue, what it received and what it handed over. */
  datatype Side = Side(
    log: Logged<TimedFrame>, worker: Input, accumulator: Accumulator, packets: seq<Packet>, emitted: seq<TimedFrame>)

  /** What happened: the microphone frames written, by number, and which failure won the latch. */
  datatype History = History(
    written: seq<(nat, TimedFrame)>, writtenAtStop: nat, winner: Option<Thread>, latched: Option<EngineError>)

  datatype State = State(
    stop: bool, terminal: bool, state: EngineState, lastError: Option<EngineError>, accepted: nat,
    microphone: Side, render: Side, processing: Processing, sequence: nat, control: Control, past: History)

  const IDLE_SIDE := Side(Logged(Empty(), [], [], 0), Opening, FRESH, [], [])

  const INITIAL := State(
    false, false, Starting, None, 0, IDLE_SIDE, IDLE_SIDE, FirstMicrophone, 0, Waiting, History([], 0, None, None))

  /** What the outside world, or the data a worker computes with, decides. */
  datatype Choice =
    | Go
    | Fault(error: EngineError)
    | Received(packet: Packet)
    | PopRender
    | SetState(running: bool)

  datatype Event = Event(thread: Thread, choice: Choice)

  function Applied(side: Side, op: Op<TimedFrame>): Side { side.(log := Apply(side.log, TIMED_QUEUE_CAPACITY, op)) }

  function SideOf(s: State, t: Thread): Side { if t == RenderThread then s.render else s.microphone }

  function WithSide(s: State, t: Thread, side: Side): State {
    if t == RenderThread then s.(render := side) else s.(microphone := side)
  }

  function RaiseStop(s: State): State {
    s.(stop := true, past := if s.stop then s.past else s.past.(writtenAtStop := |s.past.written|))
  }

  function FailQueue(s: State, render: bool): State {
    if render then s.(render := Applied(s.render, DoFail)) else s.(microphone := Applied(s.microphone, DoFail))
  }

  /** One step of `record_aec_failure` by thread `t`, and where it goes on; None when it is over. */
  function Record(s: State, t: Thread, r: Recording): (State, Option<Recording>) {
    match r
    case Cas(e) =>
      if s.terminal then (s, None)
      else (s.(terminal := true, past := s.past.(winner := Some(t), latched := Some(e))), Some(Raise(e)))
    case Raise(e) => (RaiseStop(s), Some(FailFirst(e)))
    case FailFirst(e) => (FailQueue(s, t == RenderThread), Some(FailSecond(e)))
    case FailSecond(e) => (FailQueue(s, t != RenderThread), Some(Publish(e)))
    case Publish(e) => (s.(state := Failed, lastError := Some(e)), None)
  }

  function OversizedPacket(t: Thread): EngineError {
    EngineError(if t == RenderThread then RenderFailure else SourceFailure,
                "packet exceeds the preallocated capacity")
  }

  function SideReads(side: Side, t: Thread, c: Choice): Side {
    match c
    case Fault(e) => side.(worker := InputFails(Cas(e), false))
    case Received(p) =>
      if p.metadata.frames > PACKET_CAPACITY then side.(worker := InputFails(Cas(OversizedPacket(t)), false)) else
      var fed := Feed(side.accumulator, p);
      side.(worker := Pushing(fed.frames), accumulator := fed.state, packets := side.packets + [p])
    case _ => side.(worker := LoopHead)
  }

  /** One step of an input worker outside the failure body; None when there is none. */
  function SideNext(side: Side, t: Thread, stop: bool, terminal: bool, c: Choice): Option<Side> {
    match side.worker
    case Opening => Some(side.(worker := if c.Fault? then Finishing else LoopHead))
    case LoopHead => Some(side.(worker := if stop then StoppingInput else Awaiting))
    case Awaiting => Some(SideReads(side, t, c))
    case Pushing(rest) =>
      if rest == [] then Some(side.(worker := LoopHead)) else
      Some(Applied(side, DoPush(rest[0])).(worker := Counting(rest[1..]), emitted := side.emitted + [rest[0]]))
    case Counting(rest) => Some(side.(worker := Pushing(rest)))
    case InputFails(_, _) => None
    case StoppingInput =>
      Some(side.(accumulator := FRESH, worker := if c.Fault? then CheckingTerminal(c.error) else Finishing))
    case CheckingTerminal(e) => Some(side.(worker := if terminal then Finishing else InputFails(Cas(e), true)))
    case Finishing => Some(Applied(side, DoFinish).(worker := InputDone))
    case InputDone => None
  }

  function Resume(next: Option<Recording>, stopped: bool): Input {
    if next.Some? then InputFails(next.value, stopped) else if stopped then Finishing else StoppingInput
  }

  /** One step of the input worker `t`, for either role. */
  function InputNext(s: State, t: Thread, c: Choice): Option<State> {
    var side := SideOf(s, t);
    if side.worker.InputFails? then
      var (s', next) := Record(s, t, side.worker.recording);
      Some(WithSide(s', t, SideOf(s', t).(worker := Resume(next, side.worker.stopped))))
    else
      var side' := SideNext(side, t, s.stop, s.terminal, c);
      if side'.None? then None else Some(WithSide(s, t, side'.value))
  }

  /** The worker's unconditional writes of the engine state. */
  function SetEngineState(s: State, running: bool): State { s.(state := if running then RunningAec else Degraded) }

  /** A pop of the microphone queue, and what the worker does with its answer. */
  function PopMicrophone(s: State): (State, PopResult<TimedFrame>) {
    (s.(microphone := Applied(s.microphone, DoPop)), AfterPop(s.microphone.log.queue).1)
  }

  /** The steps at which the processing worker takes a frame from a queue. */
  predicate Takes(p: Processing, c: Choice) {
    p.FirstMicrophone? || p.FirstRender? || p.PoppingMicrophone? || (p.Selecting? && c.PopRender?)
  }

  function ProcessingTakes(s: State, c: Choice): State
    requires Takes(s.processing, c)
  {
    match s.processing
    case FirstMicrophone =>
      var (s', result) := PopMicrophone(s);
      s'.(processing := if result.Frame? then FirstRender(result.frame) else ProcessingDone)
    case FirstRender(f) =>
      var finished := AfterPop(s.render.log.queue).1.Finished?;
      s.(render := Applied(s.render, DoPop),
         processing := if (finished && s.terminal) || c.Fault? then ProcessingDone else ProcessingHead(Some(f)))
    case PoppingMicrophone =>
      var (s', result) := PopMicrophone(s);
      s'.(processing := match result
                        case Frame(f) => Selecting(f)
                        case Timeout => ProcessingHead(None)
                        case Finished => Closing)
    case Selecting(_) => s.(render := Applied(s.render, DoTryPop))
  }

  function FailsWith(e: EngineError): Processing { ProcessingFails(Cas(e), false) }

  /** The steps that touch no queue and are not part of the failure body. */
  function ProcessingMoves(s: State, c: Choice): Option<State> {
    match s.processing
    case ProcessingHead(first) =>
      Some(s.(processing := if s.stop then Closing
                            else if first.Some? then Selecting(first.value)
                            else PoppingMicrophone))
    case Selecting(f) =>
      Some(match c
           case Fault(e) => s.(processing := FailsWith(e))
           case SetState(running) => SetEngineState(s, running)
           case _ => s.(processing := Cancelling(f)))
    case Cancelling(f) =>
      Some(match c
           case Fault(e) => s.(processing := FailsWith(e))
           case SetState(_) => SetEngineState(s, false)
           case _ => s.(processing := Writing(f)))
    case Writing(f) =>
      if c.Fault? then Some(s.(processing := FailsWith(c.error))) else
      Some(s.(processing := Accepting, sequence := s.sequence + 1,
              past := s.past.(written := s.past.written + [(s.sequence, f)])))
    case Accepting => Some(s.(accepted := s.accepted + 1, processing := Diagnosing))
    case Diagnosing => Some(s.(processing := if c.Fault? then FailsWith(c.error) else ProcessingHead(None)))
    case Closing => Some(s.(processing := if c.Fault? then CheckingClose(c.error) else ProcessingDone))
    case CheckingClose(e) =>
      Some(s.(processing := if s.terminal then ProcessingDone else ProcessingFails(Cas(e), true)))
    case _ => None
  }

  function ResumeProcessing(next: Option<Recording>, closed: bool): Processing {
    if next.Some? then ProcessingFails(next.value, closed) else if closed then ProcessingDone else Closing
  }

  function ProcessingNext(s: State, c: Choice): Option<State> {
    if s.processing.ProcessingFails? then
      var (s', next) := Record(s, ProcessingThread, s.processing.recording);
      Some(s'.(processing := ResumeProcessing(next, s.processing.closed)))
    else if Takes(s.processing, c) then Some(ProcessingTakes(s, c))
    else ProcessingMoves(s, c)
  }

  /** The steps of the controller that touch no queue and are not part of the failure body. */
  function ControlMoves(s: State, c: Choice): Option<State> {
    match s.control
    case Waiting =>
      Some(if c.Fault? then s.(control := StartFails(Cas(c.error)))
           else if !s.terminal && s.state == Starting then s.(control := Idle, state := RunningAec)
           else s.(control := Idle))
    case Idle => Some(s.(control := if s.state == Failed then Raising(true) else Marking))
    case Marking => Some(s.(control := Raising(true), state := Stopping))
    case Raising(stopping) => Some(RaiseStop(s).(control := Joining(stopping)))
    case WritingStopped => Some(s.(state := Stopped, control := ControlDone))
    case _ => None
  }

  function ResumeStart(next: Option<Recording>): Control {
    if next.Some? then StartFails(next.value) else Raising(false)
  }

  function ControlNext(s: State, c: Choice): Option<State> {
    match s.control
    case StartFails(r) =>
      var (s', next) := Record(s, ControlThread, r);
      Some(s'.(control := ResumeStart(next)))
    case Joining(stopping) =>
      if s.microphone.worker.InputDone? && s.render.worker.InputDone? && s.processing.ProcessingDone? then
        Some(s.(microphone := Applied(s.microphone, DoClear), render := Applied(s.render, DoClear),
                control := if stopping then WritingStopped else ControlDone))
      else None
    case _ => ControlMoves(s, c)
  }

  function Next(s: State, e: Event): Option<State> {
    match e.thread
    case ProcessingThread => ProcessingNext(s, e.choice)
    case ControlThread => ControlNext(s, e.choice)
    case _ => InputNext(s, e.thread, e.choice)
  }

  /** The state after a list of events; None when one of them is not possible. */
  function RunFrom(s: State, events: seq<Event>): Option<State> {
    if events == [] then Some(s) else
    var before := RunFrom(s, events[..|events| - 1]);
    if before.None? then None else Next(before.value, events[|events| - 1])
  }

  // ---- Frames ----

  /** What the accumulator makes of the packets received so far. */
  function Captured(packets: seq<Packet>): Ran { TimedFraming.Run(FRESH, packets) }

  /** The frames an input worker still has to hand over. */
  function Unpushed(i: Input): seq<TimedFrame> {
    match i
    case Pushing(rest) => rest
    case Counting(rest) => rest
    case _ => []
  }

  predicate Collecting(i: Input) { i.Opening? || i.LoopHead? || i.Awaiting? || i.Pushing? || i.Counting? }

  /** What a side handed over is what the accumulator made of its packets; its queue explains its history. */
  ghost predicate SideInv(side: Side) {
    && Explained(side.log, TIMED_QUEUE_CAPACITY)
    && side.emitted + Unpushed(side.worker) == Captured(side.packets).frames
    && (Collecting(side.worker) ==> side.accumulator == Captured(side.packets).state)
    && (side.log.queue.producerDone <==> side.worker.InputDone?)
    && side.log.pushed <= side.emitted
    && (!side.log.queue.failed ==> side.log.pushed == side.emitted)
  }

  ghost predicate Dead(side: Side) { side.log.queue.failed && side.log.queue.frames == [] }

  /** What a side's own steps leave alone. */
  ghost predicate SideMoves(side: Side, side': Side) {
    && side'.log.popped == side.log.popped && side.log.pushed <= side'.log.pushed
    && (Dead(side) ==> Dead(side'))
    && (side'.worker.InputFails? ==> side'.worker.recording.Cas?)
  }

  lemma CapturedSnoc(packets: seq<Packet>, p: Packet)
    ensures var before := Captured(packets); var fed := Feed(before.state, p);
            Captured(packets + [p]).frames == before.frames + fed.frames && Captured(packets + [p]).state == fed.state
  {
    assert (packets + [p])[..|packets|] == packets;
    hide Feed;
  }

  lemma ReadKeeps(side: Side, t: Thread, c: Choice)
    requires SideInv(side) && side.worker.Awaiting?
    ensures var side' := SideReads(side, t, c); SideInv(side') && SideMoves(side, side')
  {
    hide Captured, Feed, Explained;
    assert side.emitted + [] == side.emitted;
    if c.Received? {
      CapturedSnoc(side.packets, c.packet);
    }
  }

  lemma PushEffect(l: Logged<TimedFrame>, x: TimedFrame)
    ensures var l' := Apply(l, TIMED_QUEUE_CAPACITY, DoPush(x));
            && l'.popped == l.popped
            && l'.queue.failed == l.queue.failed && l'.queue.producerDone == l.queue.producerDone
            && (if l.queue.failed || l.queue.producerDone then l' == l else l'.pushed == l.pushed + [x])
  {
  }

  lemma PushKeeps(side: Side)
    requires SideInv(side) && side.worker.Pushing? && side.worker.rest != []
    ensures var side' := SideNext(side, MicrophoneThread, false, false, Go).value;
            SideInv(side') && SideMoves(side, side')
  {
    var x, rest := side.worker.rest[0], side.worker.rest[1..];
    ExplainedStep(side.log, TIMED_QUEUE_CAPACITY, DoPush(x));
    PushEffect(side.log, x);
    hide Captured, Explained, Apply;
    assert side.worker.rest == [x] + rest;
    assert side.emitted + [x] + rest == side.emitted + ([x] + rest);
  }

  /** The steps of an input worker that only move the worker itself. */
  predicate MovesOnly(i: Input) {
    i.Opening? || i.LoopHead? || (i.Pushing? && i.rest == []) || i.Counting? || i.StoppingInput? || i.CheckingTerminal?
  }

  lemma WorkerMoves(side: Side, t: Thread, stop: bool, terminal: bool, c: Choice)
    requires SideNext(side, t, stop, terminal, c).Some? && MovesOnly(side.worker)
    ensures var side' := SideNext(side, t, stop, terminal, c).value;
            && side'.log == side.log && side'.packets == side.packets && side'.emitted == side.emitted
            && Unpushed(side'.worker) == Unpushed(side.worker) && !side'.worker.InputDone?
            && (Collecting(side'.worker) ==> Collecting(side.worker) && side'.accumulator == side.accumulator)
            && (side'.worker.InputFails? ==> side'.worker.recording.Cas?)
  {
    hide Apply, SideReads;
  }

  lemma MovesKeep(side: Side, t: Thread, stop: bool, terminal: bool, c: Choice)
    requires SideInv(side) && SideNext(side, t, stop, terminal, c).Some? && MovesOnly(side.worker)
    ensures var side' := SideNext(side, t, stop, terminal, c).value; SideInv(side') && SideMoves(side, side')
  {
    WorkerMoves(side, t, stop, terminal, c);
    hide SideNext, Explained, Captured, Unpushed, Collecting;
  }

  lemma FinishKeeps(side: Side)
    requires SideInv(side) && side.worker.Finishing?
    ensures var side' := Applied(side, DoFinish).(worker := InputDone); SideInv(side') && SideMoves(side, side')
  {
    ExplainedStep(side.log, TIMED_QUEUE_CAPACITY, DoFinish);
    hide Explained, Captured;
  }

  lemma SideNextKeeps(side: Side, t: Thread, stop: bool, terminal: bool, c: Choice)
    requires SideInv(side) && SideNext(side, t, stop, terminal, c).Some?
    ensures var side' := SideNext(side, t, stop, terminal, c).value; SideInv(side') && SideMoves(side, side')
  {
    hide SideInv, SideMoves, Apply;
    if side.worker.Awaiting? {
      ReadKeeps(side, t, c);
    } else if MovesOnly(side.worker) {
      MovesKeep(side, t, stop, terminal, c);
    } else if side.worker.Finishing? {
      FinishKeeps(side);
    } else {
      PushKeeps(side);
    }
  }

  /** What the other threads do to a queue leaves the flow of frames alone. */
  lemma AppliedKeeps(side: Side, op: Op<TimedFrame>)
    requires SideInv(side) && (op.DoPop? || op.DoTryPop? || op.DoFail? || op.DoClear?)
    ensures var side' := Applied(side, op);
            && SideInv(side') && side'.log.pushed == side.log.pushed
            && (Dead(side) || op.DoFail? ==> Dead(side'))
  {
    ExplainedStep(side.log, TIMED_QUEUE_CAPACITY, op);
    hide Explained, Captured, Unpushed, Collecting;
  }

  // ---- The latch ----

  function RecordingOf(s: State, t: Thread): Option<Recording> {
    match t
    case ProcessingThread => if s.processing.ProcessingFails? then Some(s.processing.recording) else None
    case ControlThread => if s.control.StartFails? then Some(s.control.recording) else None
    case _ => if SideOf(s, t).worker.InputFails? then Some(SideOf(s, t).worker.recording) else None
  }

  /** A thread that won the compare-and-swap and has not finished the failure body. */
  function Active(s: State, t: Thread): Option<Recording> {
    var r := RecordingOf(s, t);
    if r.Some? && !r.value.Cas? then r else None
  }

  ghost predicate ActiveIsWinner(s: State, t: Thread) {
    Active(s, t).Some? ==> s.past.winner == Some(t) && s.past.latched == Some(Active(s, t).value.error)
  }

  ghost predicate QueueFailed(s: State, render: bool) { Dead(if render then s.render else s.microphone) }

  /** How far the winner's failure body has come. */
  ghost predicate Progress(s: State, t: Thread, r: Option<Recording>) {
    && (r.Some? ==> s.lastError.None?)
    && (r.None? || !r.value.Raise? ==> s.stop)
    && (r.None? ==> s.lastError == s.past.latched)
    && (r.None? || r.value.FailSecond? || r.value.Publish? ==> QueueFailed(s, t == RenderThread))
    && (r.None? || r.value.Publish? ==> QueueFailed(s, t != RenderThread))
  }

  ghost predicate Latch(s: State) {
    && (s.terminal <==> s.past.winner.Some?) && (s.terminal <==> s.past.latched.Some?)
    && (forall t :: ActiveIsWinner(s, t))
    && (if s.terminal then Progress(s, s.past.winner.value, Active(s, s.past.winner.value)) else s.lastError.None?)
    && (s.state == Failed ==> s.lastError.Some?)
  }

  /** A step outside the failure body. */
  ghost predicate Quiet(s: State, s': State) {
    && s'.terminal == s.terminal && (s.stop ==> s'.stop) && s'.lastError == s.lastError
    && s'.past.winner == s.past.winner && s'.past.latched == s.past.latched
    && (forall t :: Active(s', t) == Active(s, t))
    && (s'.state == Failed ==> s.state == Failed)
    && (QueueFailed(s, true) ==> QueueFailed(s', true))
    && (QueueFailed(s, false) ==> QueueFailed(s', false))
  }

  lemma LatchKept(s: State, s': State)
    requires Latch(s) && Quiet(s, s')
    ensures Latch(s')
  {
    hide Active, QueueFailed;
    forall t ensures ActiveIsWinner(s', t) {
      assert ActiveIsWinner(s, t) && Active(s', t) == Active(s, t);
    }
  }

  /** What one step of the failure body, run by thread `t`, leaves `s'` with; the workers may move on. */
  ghost predicate Recorded(s: State, t: Thread, r: Recording, s': State) {
    var recorded := Record(s, t, r);
    && s'.terminal == recorded.0.terminal && s'.stop == recorded.0.stop && s'.state == recorded.0.state
    && s'.lastError == recorded.0.lastError && s'.past == recorded.0.past
    && s'.microphone.log == recorded.0.microphone.log && s'.render.log == recorded.0.render.log
    && Active(s', t) == recorded.1 && (forall u :: u != t ==> Active(s', u) == Active(s, u))
  }

  lemma CasLatch(s: State, t: Thread, e: EngineError, s': State)
    requires Latch(s) && Active(s, t).None? && Recorded(s, t, Cas(e), s')
    ensures Latch(s')
  {
    forall u ensures ActiveIsWinner(s', u) && (!s.terminal ==> Active(s, u).None?) {
      assert ActiveIsWinner(s, u);
    }
    assert forall b :: QueueFailed(s', b) <==> QueueFailed(s, b);
    hide Active, Dead;
    if s.terminal {
      assert Active(s', s.past.winner.value) == Active(s, s.past.winner.value);
    }
  }

  lemma FailedQueues(s: State, t: Thread, r: Recording)
    requires SideInv(s.microphone) && SideInv(s.render)
    ensures var s' := Record(s, t, r).0;
            && (r.FailFirst? ==> QueueFailed(s', t == RenderThread))
            && (r.FailSecond? ==> QueueFailed(s', t != RenderThread))
            && (forall b :: QueueFailed(s, b) ==> QueueFailed(s', b))
  {
    AppliedKeeps(s.microphone, DoFail);
    AppliedKeeps(s.render, DoFail);
    hide SideInv, Apply, Dead;
  }

  lemma BodyLatch(s: State, t: Thread, r: Recording, s': State)
    requires Latch(s) && !r.Cas? && Active(s, t) == Some(r) && Recorded(s, t, r, s')
    requires SideInv(s.microphone) && SideInv(s.render)
    ensures Latch(s')
  {
    assert ActiveIsWinner(s, t);
    FailedQueues(s, t, r);
    assert forall b :: QueueFailed(s', b) <==> QueueFailed(Record(s, t, r).0, b);
    hide SideInv, QueueFailed, FailQueue;
    assert s'.terminal && s'.past.winner == Some(t) && s'.past.latched == Some(r.error);
    assert Record(s, t, r).1.Some? ==> Record(s, t, r).1.value.error == r.error;
    forall u ensures ActiveIsWinner(s', u) {
      assert ActiveIsWinner(s, u);
    }
    hide Active, Recorded;
  }

  lemma RecordLatch(s: State, t: Thread, r: Recording, s': State)
    requires Latch(s) && RecordingOf(s, t) == Some(r) && Recorded(s, t, r, s')
    requires SideInv(s.microphone) && SideInv(s.render)
    ensures Latch(s')
  {
    hide Latch, Recorded, SideInv;
    if r.Cas? {
      CasLatch(s, t, r.error, s');
    } else {
      BodyLatch(s, t, r, s');
    }
  }

  // ---- Frames written ----

  /** The microphone frame the processing worker has in hand. */
  function Hand(p: Processing): seq<TimedFrame> {
    match p
    case FirstRender(f) => [f]
    case ProcessingHead(first) => if first.Some? then [first.value] else []
    case Selecting(f) => [f]
    case Cancelling(f) => [f]
    case Writing(f) => [f]
    case _ => []
  }

  /** The processing worker has left its loop, or never entered it. */
  predicate PastLoop(p: Processing) {
    p.ProcessingFails? || p.Closing? || p.CheckingClose? || p.ProcessingDone?
  }

  /** Frame k was computed from the k-th microphone frame popped; at most the last one popped is not written. */
  ghost predicate Order(l: Logged<TimedFrame>, p: Processing, sequence: nat, written: seq<(nat, TimedFrame)>)
    requires Explained(l, TIMED_QUEUE_CAPACITY)
  {
    && sequence == |written|
    && (if PastLoop(p) then |written| <= |l.popped| <= |written| + 1 else |l.popped| == |written| + |Hand(p)|)
    && (Hand(p) != [] ==> Hand(p)[0] == l.pushed[l.popped[|written|]])
    && (forall k :: 0 <= k < |written| ==> written[k] == (k, l.pushed[l.popped[k]]))
  }

  /** The processing worker has checked the stop flag and may still write one frame. */
  predicate InIteration(p: Processing) {
    p.PoppingMicrophone? || p.Selecting? || p.Cancelling? || p.Writing?
  }

  ghost predicate Writes(s: State) {
    && s.accepted + (if s.processing.Accepting? then 1 else 0) == |s.past.written|
    && (s.stop ==>
          && |s.past.written| + (if InIteration(s.processing) then 1 else 0) <= s.past.writtenAtStop + 1
          && s.past.writtenAtStop <= |s.past.written|)
  }

  ghost predicate Flow(s: State) {
    && SideInv(s.microphone) && SideInv(s.render) && Writes(s)
    && Order(s.microphone.log, s.processing, s.sequence, s.past.written)
  }

  ghost predicate Inv(s: State) { Flow(s) && Latch(s) }

  lemma OrderGrows(
      l: Logged<TimedFrame>, l': Logged<TimedFrame>, p: Processing, sequence: nat, written: seq<(nat, TimedFrame)>)
    requires Explained(l, TIMED_QUEUE_CAPACITY) && Explained(l', TIMED_QUEUE_CAPACITY)
    requires Order(l, p, sequence, written) && l'.popped == l.popped && l.pushed <= l'.pushed
    ensures Order(l', p, sequence, written)
  {
    assert forall k :: 0 <= k < |l.popped| ==> l.popped[k] < |l.pushed|;
    assert Hand(p) != [] ==> !PastLoop(p) && |Hand(p)| == 1;
    hide Hand, PastLoop, Explained;
  }

  /** A side that moves takes the flow along. */
  lemma FlowOfSide(s: State, t: Thread, side: Side)
    requires Flow(s) && SideInv(side) && (t == MicrophoneThread || t == RenderThread)
    requires t == MicrophoneThread ==>
      side.log.popped == s.microphone.log.popped && s.microphone.log.pushed <= side.log.pushed
    ensures Flow(WithSide(s, t, side))
  {
    if t == MicrophoneThread {
      OrderGrows(s.microphone.log, side.log, s.processing, s.sequence, s.past.written);
    }
    hide SideInv, Order;
  }

  /** The processing worker goes on with the same frame in hand, or leaves its loop. */
  lemma FlowOfProcessing(s: State, p: Processing)
    requires Flow(s) && (PastLoop(s.processing) ==> PastLoop(p))
    requires PastLoop(p) || Hand(p) == Hand(s.processing)
    requires p.Accepting? == s.processing.Accepting?
    requires s.stop && InIteration(p) ==> InIteration(s.processing)
    ensures Flow(s.(processing := p))
  {
    hide SideInv, Explained;
  }

  lemma DoFailKeeps(side: Side)
    requires SideInv(side)
    ensures SideInv(Applied(side, DoFail)) && Applied(side, DoFail).log.pushed == side.log.pushed
    ensures Applied(side, DoFail).log.popped == side.log.popped
  {
    AppliedKeeps(side, DoFail);
  }

  lemma FailFlow(s: State, t: Thread)
    requires Flow(s) && (t == MicrophoneThread || t == RenderThread)
    ensures Flow(WithSide(s, t, Applied(SideOf(s, t), DoFail)))
  {
    DoFailKeeps(SideOf(s, t));
    FlowOfSide(s, t, Applied(SideOf(s, t), DoFail));
    hide Flow;
  }

  lemma RecordFlow(s: State, t: Thread, r: Recording)
    requires Flow(s)
    ensures Flow(Record(s, t, r).0)
  {
    hide SideInv, Order, Explained, Apply, Applied, Flow;
    var s' := Record(s, t, r).0;
    if r.FailFirst? || r.FailSecond? {
      FailFlow(s, MicrophoneThread);
      FailFlow(s, RenderThread);
    } else {
      RecordedFlow(s, s');
    }
  }

  /** Every thread is where it was, until it moves on itself. */
  lemma RecordWorkers(s: State, t: Thread, r: Recording)
    ensures var s' := Record(s, t, r).0;
            && s'.microphone.worker == s.microphone.worker && s'.render.worker == s.render.worker
            && s'.processing == s.processing && s'.control == s.control
  {
    hide Apply;
  }

  lemma RecordedFlow(s: State, s': State)
    requires Flow(s) && s'.microphone == s.microphone && s'.render == s.render && s'.processing == s.processing
    requires s'.sequence == s.sequence && s'.accepted == s.accepted && s'.past.written == s.past.written
    requires (s'.stop == s.stop && s'.past.writtenAtStop == s.past.writtenAtStop)
          || (s'.stop && !s.stop && s'.past.writtenAtStop == |s.past.written|)
    ensures Flow(s')
  {
    hide SideInv, Order, Explained, Apply;
  }

  /** The worker of a side that is in the failure body may go on to anything but a push or the end. */
  lemma WorkerResumes(side: Side, i: Input)
    requires SideInv(side) && side.worker.InputFails? && (i.InputFails? || i.Finishing? || i.StoppingInput?)
    ensures SideInv(side.(worker := i))
  {
    hide Explained, Captured;
  }

  // ---- The input workers ----

  /** Replacing the side of `t` moves no other thread. */
  lemma OthersStay(s: State, t: Thread, side: Side)
    requires t == MicrophoneThread || t == RenderThread
    ensures var s' := WithSide(s, t, side);
            && SideOf(s', t) == side && s' == s.(microphone := s'.microphone, render := s'.render)
            && RecordingOf(s', t) == (if side.worker.InputFails? then Some(side.worker.recording) else None)
            && forall u :: u != t ==> RecordingOf(s', u) == RecordingOf(s, u)
  {
  }

  lemma RecordedWithSide(s: State, t: Thread, r: Recording, i: Input)
    requires (t == MicrophoneThread || t == RenderThread) && RecordingOf(s, t) == Some(r)
    requires var next := Record(s, t, r).1;
             if next.None? then !i.InputFails? else i.InputFails? && i.recording == next.value && !next.value.Cas?
    ensures var s' := Record(s, t, r).0;
            Recorded(s, t, r, WithSide(s', t, SideOf(s', t).(worker := i)))
  {
    var s' := Record(s, t, r).0;
    RecordWorkers(s, t, r);
    OthersStay(s', t, SideOf(s', t).(worker := i));
    assert forall u :: RecordingOf(s', u) == RecordingOf(s, u);
    SameLogs(s', t, i);
    hide Record, WithSide, SideOf, RecordingOf;
  }

  lemma SameLogs(s: State, t: Thread, i: Input)
    ensures var s' := WithSide(s, t, SideOf(s, t).(worker := i));
            s'.microphone.log == s.microphone.log && s'.render.log == s.render.log
  {
  }

  lemma NextRecording(s: State, t: Thread, r: Recording)
    ensures Record(s, t, r).1.Some? ==> !Record(s, t, r).1.value.Cas?
  {
    hide Apply;
  }

  /** A step of `t` is one of the failure body, if `t` is in it, and quiet otherwise. */
  ghost predicate Kind(s: State, t: Thread, s': State) {
    if RecordingOf(s, t).Some? then Recorded(s, t, RecordingOf(s, t).value, s') else Quiet(s, s')
  }

  lemma InputRecords(s: State, t: Thread, c: Choice)
    requires Flow(s) && (t == MicrophoneThread || t == RenderThread) && SideOf(s, t).worker.InputFails?
    ensures Flow(InputNext(s, t, c).value) && Kind(s, t, InputNext(s, t, c).value)
  {
    var side, r := SideOf(s, t), SideOf(s, t).worker.recording;
    var (s', next) := Record(s, t, r);
    var i := Resume(next, side.worker.stopped);
    var side' := SideOf(s', t).(worker := i);
    assert InputNext(s, t, c).value == WithSide(s', t, side');
    NextRecording(s, t, r);
    RecordFlow(s, t, r);
    RecordWorkers(s, t, r);
    WorkerResumes(SideOf(s', t), i);
    RecordedWithSide(s, t, r, i);
    hide InputNext, SideInv, Order, Writes, Record, Recorded;
    FlowOfSide(s', t, side');
    hide WithSide, SideOf, Flow;
  }

  lemma InputQuiet(s: State, t: Thread, side: Side)
    requires (t == MicrophoneThread || t == RenderThread) && !SideOf(s, t).worker.InputFails?
    requires SideMoves(SideOf(s, t), side)
    ensures Quiet(s, WithSide(s, t, side))
  {
  }

  lemma InputStep(s: State, t: Thread, c: Choice)
    requires Flow(s) && (t == MicrophoneThread || t == RenderThread) && InputNext(s, t, c).Some?
    ensures Flow(InputNext(s, t, c).value) && Kind(s, t, InputNext(s, t, c).value)
  {
    if SideOf(s, t).worker.InputFails? {
      InputRecords(s, t, c);
    } else {
      var side := SideNext(SideOf(s, t), t, s.stop, s.terminal, c).value;
      SideNextKeeps(SideOf(s, t), t, s.stop, s.terminal, c);
      InputQuiet(s, t, side);
      hide Quiet, Order, Writes, SideInv;
      FlowOfSide(s, t, side);
    }
    hide Flow, Record, Quiet, Recorded;
  }

  // ---- The processing worker ----

  lemma PopEffect(l: Logged<TimedFrame>)
    requires Explained(l, TIMED_QUEUE_CAPACITY)
    ensures var l', result := Apply(l, TIMED_QUEUE_CAPACITY, DoPop), AfterPop(l.queue).1;
            && l'.pushed == l.pushed
            && l'.popped == l.popped + (if result.Frame? then [Head(l)] else [])
            && (result.Frame? ==> 0 <= Head(l) < |l.pushed| && result.frame == l.pushed[Head(l)])
  {
  }

  lemma OrderPops(
      l: Logged<TimedFrame>, l': Logged<TimedFrame>, p: Processing, p': Processing,
      n: nat, written: seq<(nat, TimedFrame)>)
    requires Explained(l, TIMED_QUEUE_CAPACITY) && Explained(l', TIMED_QUEUE_CAPACITY)
    requires Order(l, p, n, written) && !PastLoop(p) && Hand(p) == []
    requires 0 <= Head(l) < |l.pushed| && l'.pushed == l.pushed && l'.popped == l.popped + [Head(l)]
    requires !PastLoop(p') && Hand(p') == [l.pushed[Head(l)]]
    ensures Order(l', p', n, written)
  {
    assert forall k :: 0 <= k < |l.popped| ==> l'.popped[k] == l.popped[k] && l.popped[k] < |l.pushed|;
    hide Explained, PastLoop, Hand;
  }

  lemma OrderStays(
      l: Logged<TimedFrame>, l': Logged<TimedFrame>, p: Processing, p': Processing,
      n: nat, written: seq<(nat, TimedFrame)>)
    requires Explained(l, TIMED_QUEUE_CAPACITY) && Explained(l', TIMED_QUEUE_CAPACITY)
    requires Order(l, p, n, written) && l'.pushed == l.pushed && l'.popped == l.popped
    requires PastLoop(p') || (!PastLoop(p) && Hand(p') == Hand(p))
    ensures Order(l', p', n, written)
  {
    assert PastLoop(p') ==> Hand(p') == [];
    assert |Hand(p)| <= 1;
    assert forall k :: 0 <= k < |l.popped| ==> l.popped[k] < |l.pushed|;
    hide Explained, PastLoop, Hand;
  }

  /** A pop of the microphone queue puts its frame in hand, or leaves the hand empty. */
  lemma MicrophoneTaken(s: State, p: Processing)
    requires Flow(s) && (s.processing.FirstMicrophone? || s.processing.PoppingMicrophone?)
    requires var result := AfterPop(s.microphone.log.queue).1;
             if result.Frame? then !PastLoop(p) && Hand(p) == [result.frame] else PastLoop(p) || Hand(p) == []
    requires !p.Accepting? && (InIteration(p) ==> InIteration(s.processing))
    ensures Flow(PopMicrophone(s).0.(processing := p))
  {
    var l, side' := s.microphone.log, Applied(s.microphone, DoPop);
    AppliedKeeps(s.microphone, DoPop);
    PopEffect(l);
    assert l.popped + [] == l.popped;
    EmptyHand(s.processing);
    hide Explained, Apply, PastLoop, Hand, Order;
    if AfterPop(l.queue).1.Frame? {
      OrderPops(l, side'.log, s.processing, p, s.sequence, s.past.written);
    } else {
      OrderStays(l, side'.log, s.processing, p, s.sequence, s.past.written);
    }
    hide SideInv;
  }

  lemma EmptyHand(p: Processing)
    requires p.FirstMicrophone? || p.PoppingMicrophone?
    ensures !PastLoop(p) && Hand(p) == []
  {
  }

  lemma MicrophoneTakenShape(s: State, c: Choice)
    requires s.processing.FirstMicrophone? || s.processing.PoppingMicrophone?
    ensures var result, s' := AfterPop(s.microphone.log.queue).1, ProcessingTakes(s, c); var p := s'.processing;
            && s' == PopMicrophone(s).0.(processing := p)
            && (if result.Frame? then !PastLoop(p) && Hand(p) == [result.frame] else PastLoop(p) || Hand(p) == [])
            && !p.Accepting? && (InIteration(p) ==> InIteration(s.processing))
  {
    hide Applied, AfterPop;
  }

  lemma RenderTakenShape(s: State, c: Choice)
    requires s.processing.FirstRender? || (s.processing.Selecting? && c.PopRender?)
    ensures var s' := ProcessingTakes(s, c); var p := s'.processing;
            && s' == s.(render := Applied(s.render, if s.processing.FirstRender? then DoPop else DoTryPop),
                        processing := p)
            && (p == s.processing || p.ProcessingDone? || (p.ProcessingHead? && Hand(p) == Hand(s.processing)))
  {
    hide Applied, AfterPop;
  }

  lemma TakesFlow(s: State, c: Choice)
    requires Flow(s) && Takes(s.processing, c)
    ensures Flow(ProcessingTakes(s, c))
  {
    var p := ProcessingTakes(s, c).processing;
    if s.processing.FirstMicrophone? || s.processing.PoppingMicrophone? {
      MicrophoneTakenShape(s, c);
      hide Flow, Apply, AfterPop, ProcessingTakes, PopMicrophone, PastLoop, Hand;
      MicrophoneTaken(s, p);
    } else {
      var op := if s.processing.FirstRender? then DoPop else DoTryPop;
      RenderTakenShape(s, c);
      hide ProcessingTakes;
      AppliedKeeps(s.render, op);
      hide SideInv, Apply, AfterPop, Flow, Hand;
      RenderTaken(s, Applied(s.render, op), p);
    }
    hide Flow, PopMicrophone;
  }

  lemma RenderTaken(s: State, side: Side, p: Processing)
    requires Flow(s) && SideInv(side) && (s.processing.FirstRender? || s.processing.Selecting?)
    requires p == s.processing || p.ProcessingDone? || (p.ProcessingHead? && Hand(p) == Hand(s.processing))
    ensures Flow(s.(render := side, processing := p))
  {
    hide SideInv, Order;
    FlowOfSide(s, RenderThread, side);
    hide Flow;
    FlowOfProcessing(s.(render := side), p);
  }

  /** Steps on the queues keep quiet as long as no worker moves into or out of the failure body. */
  lemma QuietQueues(s: State, microphone: Side, render: Side, p: Processing, control: Control)
    requires !s.processing.ProcessingFails? && !p.ProcessingFails?
    requires control == s.control || (!control.StartFails? && !s.control.StartFails?)
    requires microphone.worker == s.microphone.worker && render.worker == s.render.worker
    requires (Dead(s.microphone) ==> Dead(microphone)) && (Dead(s.render) ==> Dead(render))
    ensures Quiet(s, s.(microphone := microphone, render := render, processing := p, control := control))
  {
    var s' := s.(microphone := microphone, render := render, processing := p, control := control);
    assert forall t :: RecordingOf(s', t) == RecordingOf(s, t);
    hide Dead, RecordingOf;
  }

  lemma TakesShape(s: State, c: Choice)
    requires Takes(s.processing, c)
    ensures var s' := ProcessingTakes(s, c);
            && !s.processing.ProcessingFails? && !s'.processing.ProcessingFails?
            && s' == s.(microphone := s'.microphone, render := s'.render, processing := s'.processing)
            && (s'.microphone == s.microphone || s'.microphone == Applied(s.microphone, DoPop))
            && (|| s'.render == s.render
                || s'.render == Applied(s.render, DoPop) || s'.render == Applied(s.render, DoTryPop))
  {
    hide Applied, AfterPop;
  }

  lemma TakesQuiet(s: State, c: Choice)
    requires Flow(s) && Takes(s.processing, c)
    ensures Quiet(s, ProcessingTakes(s, c))
  {
    var s' := ProcessingTakes(s, c);
    TakesShape(s, c);
    hide Takes, ProcessingTakes, Order, Writes;
    AppliedKeeps(s.microphone, DoPop);
    AppliedKeeps(s.render, DoPop);
    AppliedKeeps(s.render, DoTryPop);
    hide SideInv, Apply, Dead, Quiet;
    QuietQueues(s, s'.microphone, s'.render, s'.processing, s.control);
  }

  lemma WriteFlow(s: State)
    requires Flow(s) && s.processing.Writing?
    ensures Flow(s.(processing := Accepting, sequence := s.sequence + 1,
                    past := s.past.(written := s.past.written + [(s.sequence, s.processing.frame)])))
  {
    hide SideInv, Explained;
  }

  lemma AcceptFlow(s: State)
    requires Flow(s) && s.processing.Accepting?
    ensures Flow(s.(processing := Diagnosing, accepted := s.accepted + 1))
  {
    hide SideInv, Explained;
  }

  lemma StateIsFree(s: State, state: EngineState)
    requires Flow(s)
    ensures Flow(s.(state := state))
  {
    hide SideInv, Order;
  }

  lemma MovesShape(s: State, c: Choice)
    requires ProcessingMoves(s, c).Some?
    ensures var s', p := ProcessingMoves(s, c).value, s.processing;
            && !p.ProcessingFails? && (s'.processing.ProcessingFails? ==> s'.processing.recording.Cas?)
            && s' == s.(processing := s'.processing, state := s'.state, sequence := s'.sequence,
                        accepted := s'.accepted, past := s.past.(written := s'.past.written))
            && (s'.state == Failed ==> s.state == Failed)
            && (!p.Accepting? && !(p.Writing? && !c.Fault?) ==>
                  && s' == s.(processing := s'.processing, state := s'.state)
                  && !s'.processing.Accepting? && (PastLoop(p) ==> PastLoop(s'.processing))
                  && (PastLoop(s'.processing) || Hand(s'.processing) == Hand(p))
                  && (s.stop && InIteration(s'.processing) ==> InIteration(p)))
  {
  }

  lemma MovesFlow(s: State, c: Choice)
    requires Flow(s) && ProcessingMoves(s, c).Some?
    ensures Flow(ProcessingMoves(s, c).value)
  {
    var s' := ProcessingMoves(s, c).value;
    hide Flow;
    if s.processing.Writing? && !c.Fault? {
      WriteFlow(s);
    } else if s.processing.Accepting? {
      AcceptFlow(s);
    } else {
      MovesShape(s, c);
      hide ProcessingMoves, PastLoop, Hand, InIteration;
      StateIsFree(s, s'.state);
      FlowOfProcessing(s.(state := s'.state), s'.processing);
    }
  }

  lemma MovesQuiet(s: State, c: Choice)
    requires ProcessingMoves(s, c).Some?
    ensures Quiet(s, ProcessingMoves(s, c).value)
  {
    MovesShape(s, c);
    hide ProcessingMoves, Dead, PastLoop, Hand, InIteration;
  }

  lemma RecordedWithProcessing(s: State, r: Recording, p: Processing)
    requires RecordingOf(s, ProcessingThread) == Some(r)
    requires var next := Record(s, ProcessingThread, r).1;
             if next.None? then !p.ProcessingFails?
             else p.ProcessingFails? && p.recording == next.value && !next.value.Cas?
    ensures Recorded(s, ProcessingThread, r, Record(s, ProcessingThread, r).0.(processing := p))
  {
    var s' := Record(s, ProcessingThread, r).0;
    RecordWorkers(s, ProcessingThread, r);
    hide Record;
    assert forall u :: u != ProcessingThread ==> RecordingOf(s'.(processing := p), u) == RecordingOf(s, u);
  }

  lemma ProcessingRecords(s: State, c: Choice)
    requires Flow(s) && s.processing.ProcessingFails?
    ensures Flow(ProcessingNext(s, c).value) && Kind(s, ProcessingThread, ProcessingNext(s, c).value)
  {
    var r := s.processing.recording;
    var (s', next) := Record(s, ProcessingThread, r);
    var p := ResumeProcessing(next, s.processing.closed);
    assert ProcessingNext(s, c).value == s'.(processing := p);
    NextRecording(s, ProcessingThread, r);
    RecordFlow(s, ProcessingThread, r);
    RecordWorkers(s, ProcessingThread, r);
    RecordedWithProcessing(s, r, p);
    hide ProcessingNext, Record, Recorded, Flow;
    FlowOfProcessing(s', p);
  }

  lemma ProcessingStep(s: State, c: Choice)
    requires Flow(s) && ProcessingNext(s, c).Some?
    ensures Flow(ProcessingNext(s, c).value) && Kind(s, ProcessingThread, ProcessingNext(s, c).value)
  {
    hide Flow, ProcessingTakes, ProcessingMoves;
    if s.processing.ProcessingFails? {
      ProcessingRecords(s, c);
    } else if Takes(s.processing, c) {
      TakesFlow(s, c);
      TakesQuiet(s, c);
    } else {
      MovesFlow(s, c);
      MovesQuiet(s, c);
    }
    hide Record, Recorded, Quiet;
  }

  // ---- The controller ----

  lemma ControlIsFree(s: State, control: Control)
    requires Flow(s)
    ensures Flow(s.(control := control))
  {
    hide SideInv, Order;
  }

  lemma ControlMovesShape(s: State, c: Choice)
    requires ControlMoves(s, c).Some?
    ensures var s' := ControlMoves(s, c).value;
            && !s.control.StartFails? && (s'.control.StartFails? ==> s'.control.recording.Cas?)
            && s' == (if s.control.Raising? then RaiseStop(s) else s).(control := s'.control, state := s'.state)
            && (s'.state == Failed ==> s.state == Failed)
  {
  }

  lemma RaiseFlow(s: State)
    requires Flow(s)
    ensures Flow(RaiseStop(s))
  {
    hide Flow;
    RecordedFlow(s, RaiseStop(s));
  }

  lemma ControlMovesFlow(s: State, c: Choice)
    requires Flow(s) && ControlMoves(s, c).Some?
    ensures Flow(ControlMoves(s, c).value)
  {
    var s' := ControlMoves(s, c).value;
    ControlMovesShape(s, c);
    hide ControlMoves, Flow, RaiseStop;
    RaiseFlow(s);
    var raised := if s.control.Raising? then RaiseStop(s) else s;
    StateIsFree(raised, s'.state);
    ControlIsFree(raised.(state := s'.state), s'.control);
  }

  lemma ControlMovesQuiet(s: State, c: Choice)
    requires ControlMoves(s, c).Some?
    ensures Quiet(s, ControlMoves(s, c).value)
  {
    ControlMovesShape(s, c);
    hide ControlMoves, Dead;
  }

  lemma RecordedWithControl(s: State, r: Recording, control: Control)
    requires RecordingOf(s, ControlThread) == Some(r)
    requires var next := Record(s, ControlThread, r).1;
             if next.None? then !control.StartFails?
             else control.StartFails? && control.recording == next.value && !next.value.Cas?
    ensures Recorded(s, ControlThread, r, Record(s, ControlThread, r).0.(control := control))
  {
    var s' := Record(s, ControlThread, r).0;
    RecordWorkers(s, ControlThread, r);
    hide Record;
    assert forall u :: u != ControlThread ==> RecordingOf(s'.(control := control), u) == RecordingOf(s, u);
  }

  lemma ControlRecords(s: State, c: Choice)
    requires Flow(s) && s.control.StartFails?
    ensures Flow(ControlNext(s, c).value) && Kind(s, ControlThread, ControlNext(s, c).value)
  {
    var r := s.control.recording;
    var (s', next) := Record(s, ControlThread, r);
    var control := ResumeStart(next);
    assert ControlNext(s, c).value == s'.(control := control);
    NextRecording(s, ControlThread, r);
    RecordFlow(s, ControlThread, r);
    RecordedWithControl(s, r, control);
    hide ControlNext, Record, Recorded, Flow;
    ControlIsFree(s', control);
  }

  lemma ClearingFlow(s: State)
    requires Flow(s)
    ensures Flow(s.(microphone := Applied(s.microphone, DoClear), render := Applied(s.render, DoClear)))
    ensures QueueFailed(s, true) ==> Dead(Applied(s.render, DoClear))
    ensures QueueFailed(s, false) ==> Dead(Applied(s.microphone, DoClear))
  {
    AppliedKeeps(s.microphone, DoClear);
    AppliedKeeps(s.render, DoClear);
    assert Applied(s.microphone, DoClear).log.popped == s.microphone.log.popped;
    hide SideInv, Apply, Flow, Dead;
    FlowOfSide(s, MicrophoneThread, Applied(s.microphone, DoClear));
    FlowOfSide(s.(microphone := Applied(s.microphone, DoClear)), RenderThread, Applied(s.render, DoClear));
  }

  lemma Joins(s: State, c: Choice)
    requires Flow(s) && s.control.Joining? && ControlNext(s, c).Some?
    ensures Flow(ControlNext(s, c).value) && Kind(s, ControlThread, ControlNext(s, c).value)
  {
    var microphone, render := Applied(s.microphone, DoClear), Applied(s.render, DoClear);
    var control := ControlNext(s, c).value.control;
    assert ControlNext(s, c).value == s.(microphone := microphone, render := render, control := control);
    assert s.processing.ProcessingDone?;
    ClearingFlow(s);
    hide ControlNext, Flow, Quiet, Apply, Dead;
    ControlIsFree(s.(microphone := microphone, render := render), control);
    QuietQueues(s, microphone, render, s.processing, control);
  }

  lemma ControlStep(s: State, c: Choice)
    requires Flow(s) && ControlNext(s, c).Some?
    ensures Flow(ControlNext(s, c).value) && Kind(s, ControlThread, ControlNext(s, c).value)
  {
    hide Flow;
    if s.control.StartFails? {
      ControlRecords(s, c);
    } else if s.control.Joining? {
      Joins(s, c);
    } else {
      ControlMovesFlow(s, c);
      ControlMovesQuiet(s, c);
    }
    hide Record, Recorded, Quiet, Applied, ControlMoves;
  }

  // ---- Every run ----

  lemma InitialInv()
    ensures Inv(INITIAL)
  {
    hide Flow, Latch;
    InitialFlow();
    InitialLatch();
  }

  lemma InitialQueue()
    ensures Explained(IDLE_SIDE.log, TIMED_QUEUE_CAPACITY)
  {
  }

  lemma InitialSide()
    ensures SideInv(IDLE_SIDE)
  {
    assert Captured([]) == Ran([], [], FRESH);
    hide Captured, Explained;
    InitialQueue();
  }

  lemma InitialFlow()
    ensures Flow(INITIAL)
  {
    hide SideInv, Explained;
    InitialSide();
  }

  lemma InitialLatch()
    ensures Latch(INITIAL)
  {
    assert forall t :: Active(INITIAL, t).None?;
    hide Active;
  }

  lemma StepKind(s: State, e: Event)
    requires Flow(s) && Next(s, e).Some?
    ensures Flow(Next(s, e).value) && Kind(s, e.thread, Next(s, e).value)
  {
    hide Flow, Kind;
    match e.thread
    case ProcessingThread => ProcessingStep(s, e.choice);
    case ControlThread => ControlStep(s, e.choice);
    case _ => InputStep(s, e.thread, e.choice);
  }

  lemma StepInv(s: State, e: Event)
    requires Inv(s) && Next(s, e).Some?
    ensures Inv(Next(s, e).value)
  {
    StepKind(s, e);
    hide Latch, Quiet, Recorded, Next, RecordingOf, SideInv, Order, Writes;
    if RecordingOf(s, e.thread).Some? {
      RecordLatch(s, e.thread, RecordingOf(s, e.thread).value, Next(s, e).value);
    } else {
      LatchKept(s, Next(s, e).value);
    }
  }

  lemma {:induction false} ReachableInv(s: State, events: seq<Event>)
    requires Inv(s) && RunFrom(s, events).Some?
    ensures Inv(RunFrom(s, events).value)
  {
    if events != [] {
      ReachableInv(s, events[..|events| - 1]);
      StepInv(RunFrom(s, events[..|events| - 1]).value, events[|events| - 1]);
    }
    hide Inv, Next;
  }

  lemma ReachedInv(events: seq<Event>)
    requires RunFrom(INITIAL, events).Some?
    ensures Inv(RunFrom(INITIAL, events).value)
  {
    InitialInv();
    ReachableInv(INITIAL, events);
  }

  /** `written` takes frames from `source` at strictly increasing positions, numbered without a gap. */
  ghost predicate TakenInOrder(written: seq<(nat, TimedFrame)>, source: seq<TimedFrame>, at: seq<int>) {
    && |at| >= |written| && Increasing(at, |source|)
    && forall k :: 0 <= k < |written| ==> written[k] == (k, source[at[k]])
  }

  lemma OrderIsTaken(
      l: Logged<TimedFrame>, p: Processing, n: nat, written: seq<(nat, TimedFrame)>, source: seq<TimedFrame>)
    requires Explained(l, TIMED_QUEUE_CAPACITY) && Order(l, p, n, written) && l.pushed <= source
    ensures TakenInOrder(written, source, l.popped) && |l.popped| <= |written| + 1
  {
    assert |Hand(p)| <= 1;
    hide PastLoop, Hand;
  }

  /**
   * Whatever the interleaving, frame k reaches the sink under number k and is computed from the k-th
   * microphone frame taken from the queue; those are, in order and at most once each, frames of the
   * microphone's timed stream, and at most the last one taken is not written.
   */
  lemma MicrophoneSequence(events: seq<Event>) returns (at: seq<int>)
    requires RunFrom(INITIAL, events).Some?
    ensures var s := RunFrom(INITIAL, events).value;
            && TakenInOrder(s.past.written, Captured(s.microphone.packets).frames, at)
            && |at| <= |s.past.written| + 1
  {
    ReachedInv(events);
    var s := RunFrom(INITIAL, events).value;
    var side := s.microphone;
    at := side.log.popped;
    hide RunFrom, Latch, Writes, Order, Explained, Captured;
    assert side.log.pushed <= side.emitted <= Captured(side.packets).frames;
    OrderIsTaken(side.log, s.processing, s.sequence, s.past.written, Captured(side.packets).frames);
    hide *;
  }

  lemma OneRecorder(s: State)
    requires Latch(s)
    ensures forall t, u :: Active(s, t).Some? && Active(s, u).Some? ==> t == u
    ensures s.lastError.Some? ==> s.terminal && s.lastError == s.past.latched && s.stop
    ensures s.lastError.Some? ==> (forall t :: Active(s, t).None?) && QueueFailed(s, true) && QueueFailed(s, false)
  {
    hide Active, QueueFailed;
    forall t, u | Active(s, t).Some? && Active(s, u).Some? ensures t == u {
      assert ActiveIsWinner(s, t) && ActiveIsWinner(s, u);
    }
    forall t | s.lastError.Some? ensures Active(s, t).None? {
      assert ActiveIsWinner(s, t);
    }
  }

  /** The reported error is the one that won the latch, and then both queues are empty and stay failed. */
  lemma FirstErrorIsReported(events: seq<Event>)
    requires RunFrom(INITIAL, events).Some?
    ensures var s := RunFrom(INITIAL, events).value;
            && (s.lastError.Some? ==>
                  && s.lastError == s.past.latched && s.terminal && s.stop
                  && QueueFailed(s, true) && QueueFailed(s, false))
            && (forall t, u :: Active(s, t).Some? && Active(s, u).Some? ==> t == u)
            && (s.terminal && (forall t :: Active(s, t).None?) ==> s.lastError == s.past.latched)
  {
    ReachedInv(events);
    OneRecorder(RunFrom(INITIAL, events).value);
    hide RunFrom, Active, QueueFailed, Flow;
  }

  /** At most one more frame reaches the sink once a stop was requested, by the controller or a failure. */
  lemma AtMostOneFrameAfterStop(events: seq<Event>)
    requires RunFrom(INITIAL, events).Some? && RunFrom(INITIAL, events).value.stop
    ensures var past := RunFrom(INITIAL, events).value.past;
            past.writtenAtStop <= |past.written| <= past.writtenAtStop + 1
  {
    ReachedInv(events);
    hide RunFrom, Latch, SideInv, Order;
  }

  ghost predicate KeepsFailure(s: State, s': State) {
    && (s.terminal ==> s'.terminal && s'.past.latched == s.past.latched && s'.past.winner == s.past.winner)
    && (s.lastError.Some? ==> s'.lastError == s.lastError)
    && (QueueFailed(s, true) ==> QueueFailed(s', true))
    && (QueueFailed(s, false) ==> QueueFailed(s', false))
  }

  lemma RecordKeepsFailure(s: State, t: Thread, r: Recording, s': State)
    requires Inv(s) && RecordingOf(s, t) == Some(r) && Recorded(s, t, r, s')
    ensures KeepsFailure(s, s')
  {
    FailedQueues(s, t, r);
    OneRecorder(s);
    assert s.lastError.Some? ==> Active(s, t).None?;
    assert QueueFailed(s', true) == QueueFailed(Record(s, t, r).0, true);
    assert QueueFailed(s', false) == QueueFailed(Record(s, t, r).0, false);
    hide Flow, Latch, Apply, QueueFailed;
  }

  lemma StepKeepsFailure(s: State, e: Event)
    requires Inv(s) && Next(s, e).Some?
    ensures KeepsFailure(s, Next(s, e).value)
  {
    StepKind(s, e);
    hide Inv, Recorded, Next, RecordingOf;
    if RecordingOf(s, e.thread).Some? {
      RecordKeepsFailure(s, e.thread, RecordingOf(s, e.thread).value, Next(s, e).value);
    }
    hide QueueFailed;
  }

  /** Over any continuation of a run: the first error stays, and failed queues stay failed and empty. */
  lemma {:induction false} FailureIsLatched(events: seq<Event>, more: seq<Event>)
    requires RunFrom(INITIAL, events).Some? && RunFrom(RunFrom(INITIAL, events).value, more).Some?
    requires RunFrom(INITIAL, events).value.terminal
    ensures var s := RunFrom(INITIAL, events).value;
            RunFrom(s, more).value.terminal && KeepsFailure(s, RunFrom(s, more).value)
    decreases |more|
  {
    var s := RunFrom(INITIAL, events).value;
    ReachedInv(events);
    if more != [] {
      FailureIsLatched(events, more[..|more| - 1]);
      ReachableInv(s, more[..|more| - 1]);
      StepKeepsFailure(RunFrom(s, more[..|more| - 1]).value, more[|more| - 1]);
    }
    hide Inv, Next, QueueFailed;
  }

  // ---- How long Failed is shown ----

  /** The two state writes of the controller's stop. */
  predicate StopWrites(s: State, e: Event) {
    e.thread == ControlThread && (s.control.Marking? || s.control.WritingStopped?)
  }

  /** The processing worker is between two of its own, unconditional state writes. */
  predicate MayWriteState(p: Processing) { p.Selecting? || p.Cancelling? }

  predicate OwnWrite(s: State, e: Event) {
    e.thread == ProcessingThread && e.choice.SetState? && MayWriteState(s.processing)
  }

  lemma ReportedRecords(s: State, t: Thread)
    requires Latch(s) && s.lastError.Some? && RecordingOf(s, t).Some?
    ensures Record(s, t, RecordingOf(s, t).value).0 == s
  {
    OneRecorder(s);
    assert Active(s, t).None?;
  }

  /** What each thread may do to the shown state and to the worker once an error is reported. */
  ghost predicate AfterReport(s: State, e: Event, s': State) {
    && s'.state == (if OwnWrite(s, e) || StopWrites(s, e) then s'.state else s.state)
    && (OwnWrite(s, e) || StopWrites(s, e) ==> s'.state != Failed)
    && (MayWriteState(s'.processing) ==> MayWriteState(s.processing))
  }

  lemma TakesReported(s: State, c: Choice)
    requires QueueFailed(s, false) && Takes(s.processing, c)
    ensures var s' := ProcessingTakes(s, c);
            s'.state == s.state && (MayWriteState(s'.processing) ==> MayWriteState(s.processing))
  {
    TakesShape(s, c);
    assert s.processing.PoppingMicrophone? ==> AfterPop(s.microphone.log.queue).1.Finished?;
    hide Applied, AfterPop, QueueFailed;
  }

  lemma MovesReported(s: State, c: Choice)
    requires s.stop && ProcessingMoves(s, c).Some?
    ensures var s', e := ProcessingMoves(s, c).value, Event(ProcessingThread, c);
            && (if OwnWrite(s, e) then s'.state != Failed else s'.state == s.state || Takes(s.processing, c))
            && (MayWriteState(s'.processing) ==> MayWriteState(s.processing))
  {
  }

  lemma ProcessingReported(s: State, c: Choice)
    requires Inv(s) && s.lastError.Some? && !s.processing.ProcessingFails? && ProcessingNext(s, c).Some?
    ensures AfterReport(s, Event(ProcessingThread, c), ProcessingNext(s, c).value)
  {
    OneRecorder(s);
    hide Inv, Active, Record, QueueFailed, ProcessingTakes, ProcessingMoves, MayWriteState;
    if Takes(s.processing, c) {
      TakesReported(s, c);
      assert !OwnWrite(s, Event(ProcessingThread, c));
    } else {
      MovesReported(s, c);
    }
    hide Takes;
  }

  lemma ControlMovesReported(s: State, c: Choice)
    requires ControlMoves(s, c).Some? && s.terminal
    ensures var s', e := ControlMoves(s, c).value, Event(ControlThread, c);
            && s'.processing == s.processing
            && (if StopWrites(s, e) then s'.state != Failed else s'.state == s.state)
  {
  }

  lemma ControlReported(s: State, c: Choice)
    requires Inv(s) && s.lastError.Some? && !s.control.StartFails? && ControlNext(s, c).Some?
    ensures AfterReport(s, Event(ControlThread, c), ControlNext(s, c).value)
  {
    OneRecorder(s);
    hide Inv, Active, QueueFailed, ControlMoves, MayWriteState, Record, Applied;
    if !s.control.Joining? {
      ControlMovesReported(s, c);
    }
  }

  lemma RecordReported(s: State, e: Event)
    requires Inv(s) && s.lastError.Some? && RecordingOf(s, e.thread).Some? && Next(s, e).Some?
    ensures AfterReport(s, e, Next(s, e).value)
  {
    ReportedRecords(s, e.thread);
    hide Inv, Record, SideNext, ProcessingTakes, ProcessingMoves, ControlMoves, Takes, Applied;
  }

  lemma StepReported(s: State, e: Event)
    requires Inv(s) && s.lastError.Some? && Next(s, e).Some?
    ensures AfterReport(s, e, Next(s, e).value)
  {
    if RecordingOf(s, e.thread).Some? {
      RecordReported(s, e);
    } else {
      match e.thread
      case ProcessingThread => ProcessingReported(s, e.choice);
      case ControlThread => ControlReported(s, e.choice);
      case _ =>
        hide SideNext;
    }
    hide Inv, Record, ProcessingNext, ControlNext;
  }

  /** With an error reported, `Failed` is left exactly by a stop or by the worker, and never shown again. */
  lemma FailedIsLeftBy(s: State, e: Event)
    requires Inv(s) && Next(s, e).Some? && s.lastError.Some?
    ensures Next(s, e).value.state == Failed <==> s.state == Failed && !StopWrites(s, e) && !OwnWrite(s, e)
  {
    StepReported(s, e);
    hide Inv, Next, StopWrites, OwnWrite;
  }

  lemma WorkerIsPast(s: State, e: Event)
    requires Inv(s) && Next(s, e).Some? && s.lastError.Some? && !MayWriteState(s.processing)
    ensures !MayWriteState(Next(s, e).value.processing)
  {
    StepReported(s, e);
    hide Inv, Next, StopWrites, OwnWrite, MayWriteState;
  }

  ghost predicate WithoutStop(s: State, events: seq<Event>) {
    events == [] ||
    var init := events[..|events| - 1];
    WithoutStop(s, init) && RunFrom(s, init).Some? && !StopWrites(RunFrom(s, init).value, events[|events| - 1])
  }

  lemma {:induction false} FailedStays(s: State, more: seq<Event>)
    requires Inv(s) && s.state == Failed && !MayWriteState(s.processing)
    requires RunFrom(s, more).Some? && WithoutStop(s, more)
    ensures var s' := RunFrom(s, more).value; Inv(s') && s'.state == Failed && !MayWriteState(s'.processing)
  {
    if more != [] {
      FailedStays(s, more[..|more| - 1]);
      var before, e := RunFrom(s, more[..|more| - 1]).value, more[|more| - 1];
      assert before.lastError.Some?;
      hide Inv, Next, StopWrites, MayWriteState;
      StepInv(before, e);
      FailedIsLeftBy(before, e);
      WorkerIsPast(before, e);
      assert !OwnWrite(before, e);
    }
    hide Inv, Next, StopWrites, MayWriteState;
  }

  /**
   * From which states `Failed` can be lost without a stop, and for how long: in any reachable state that
   * shows `Failed`, every continuation without a stop's writes goes on showing it if and only if the
   * processing worker is not between two of its own state writes.
   */
  lemma FailedStaysExactly(events: seq<Event>)
    requires RunFrom(INITIAL, events).Some? && RunFrom(INITIAL, events).value.state == Failed
    ensures var s := RunFrom(INITIAL, events).value;
            !MayWriteState(s.processing) <==>
              forall more :: RunFrom(s, more).Some? && WithoutStop(s, more) ==> RunFrom(s, more).value.state == Failed
  {
    var s := RunFrom(INITIAL, events).value;
    ReachedInv(events);
    if MayWriteState(s.processing) {
      LosesFailed(s);
    } else {
      forall more | RunFrom(s, more).Some? && WithoutStop(s, more) ensures RunFrom(s, more).value.state == Failed {
        FailedStays(s, more);
      }
    }
    hide Inv, RunFrom, WithoutStop;
  }

  lemma LosesFailed(s: State)
    requires MayWriteState(s.processing)
    ensures exists more :: RunFrom(s, more).Some? && WithoutStop(s, more) && RunFrom(s, more).value.state != Failed
  {
    var e := Event(ProcessingThread, SetState(false));
    assert [e][..0] == [] && RunFrom(s, []) == Some(s) && WithoutStop(s, []);
    assert RunFrom(s, [e]) == Next(s, e) && WithoutStop(s, [e]);
    assert Next(s, e) == Some(SetEngineState(s, false));
  }

  /** Once lost, `Failed` is never shown again in the run, though its error still is reported. */
  lemma {:induction false} LostFailedStaysLost(events: seq<Event>, more: seq<Event>)
    requires RunFrom(INITIAL, events).Some? && RunFrom(RunFrom(INITIAL, events).value, more).Some?
    requires var s := RunFrom(INITIAL, events).value; s.lastError.Some? && s.state != Failed
    ensures var s, s' := RunFrom(INITIAL, events).value, RunFrom(RunFrom(INITIAL, events).value, more).value;
            s'.state != Failed && s'.lastError == s.lastError
    decreases |more|
  {
    var s := RunFrom(INITIAL, events).value;
    if more != [] {
      var init, e := more[..|more| - 1], more[|more| - 1];
      LostFailedStaysLost(events, init);
      ReachedInv(events);
      ReachableInv(s, init);
      StepKeepsFailure(RunFrom(s, init).value, e);
      FailedIsLeftBy(RunFrom(s, init).value, e);
    }
    hide Inv, Next, QueueFailed, StopWrites, OwnWrite;
  }

  lemma Take(events: seq<Event>, s: State, t: Thread, c: Choice) returns (longer: seq<Event>, s': State)
    requires RunFrom(INITIAL, events) == Some(s) && Next(s, Event(t, c)).Some?
    ensures s' == Next(s, Event(t, c)).value && RunFrom(INITIAL, longer) == Some(s')
  {
    longer, s' := events + [Event(t, c)], Next(s, Event(t, c)).value;
    assert longer[..|longer| - 1] == events;
  }

  lemma OneFrame(p: Packet)
    requires |p.samples| == FRAME_SAMPLES == p.metadata.frames
    ensures |Feed(FRESH, p).frames| == 1
  {
    assert |Carried(FRESH, p) + Values(p)| == FRAME_SAMPLES;
  }

  /** The microphone delivers one frame and the processing worker starts on it. */
  lemma StartsSelecting(p: Packet) returns (events: seq<Event>, s: State)
    requires |p.samples| == FRAME_SAMPLES == p.metadata.frames
    ensures RunFrom(INITIAL, events) == Some(s)
    ensures s.processing.Selecting? && !s.terminal && s.lastError.None? && !s.stop && s.render.worker == Awaiting
  {
    assert RunFrom(INITIAL, []) == Some(INITIAL) by { InitialRun(); }
    hide RunFrom;
    events, s := Take([], INITIAL, RenderThread, Go);
    events, s := Take(events, s, RenderThread, Go);
    events, s := Take(events, s, MicrophoneThread, Go);
    events, s := Take(events, s, MicrophoneThread, Go);
    assert s.microphone == IDLE_SIDE.(worker := Awaiting);
    assert s == INITIAL.(microphone := s.microphone, render := s.render);
    events, s := PacketArrives(events, s, p);
    assert s.render.worker == Awaiting;
    hide Apply;
    events, s := Take(events, s, ProcessingThread, Go);
    assert s.processing.FirstRender?;
    events, s := Take(events, s, ProcessingThread, Go);
    events, s := Take(events, s, ProcessingThread, Go);
  }

  lemma PacketArrives(before: seq<Event>, start: State, p: Packet) returns (events: seq<Event>, s: State)
    requires |p.samples| == FRAME_SAMPLES == p.metadata.frames && RunFrom(INITIAL, before) == Some(start)
    requires start.microphone == IDLE_SIDE.(worker := Awaiting)
    ensures RunFrom(INITIAL, events) == Some(s) && s == start.(microphone := s.microphone)
    ensures AfterPop(s.microphone.log.queue).1.Frame?
  {
    OneFrame(p);
    hide RunFrom, Feed;
    events, s := Take(before, start, MicrophoneThread, Received(p));
    events, s := Take(events, s, MicrophoneThread, Go);
  }

  /** The render worker takes one step of the failure body. */
  lemma RenderRecords(events: seq<Event>, s: State) returns (longer: seq<Event>, s': State)
    requires RunFrom(INITIAL, events) == Some(s) && s.render.worker.InputFails?
    ensures RunFrom(INITIAL, longer) == Some(s')
    ensures var (after, next) := Record(s, RenderThread, s.render.worker.recording);
            s' == after.(render := after.render.(worker := Resume(next, s.render.worker.stopped)))
  {
    hide RunFrom, Record;
    longer, s' := Take(events, s, RenderThread, Go);
  }

  /** From its first step on the render worker only fails, and reports it. */
  lemma RenderReports(before: seq<Event>, start: State, e: EngineError) returns (events: seq<Event>, s: State)
    requires RunFrom(INITIAL, before) == Some(start)
    requires start.processing.Selecting? && !start.terminal && start.lastError.None? && !start.stop
    requires start.render.worker == Awaiting
    ensures RunFrom(INITIAL, events) == Some(s)
    ensures s.state == Failed && s.lastError == Some(e) && s.processing == start.processing
  {
    hide RunFrom;
    events, s := Take(before, start, RenderThread, Fault(e));
    assert s.render.worker == InputFails(Cas(e), false);
    hide Next, Applied;
    events, s := RenderRecords(events, s);
    events, s := RenderRecords(events, s);
    events, s := RenderRecords(events, s);
    events, s := RenderRecords(events, s);
    events, s := RenderRecords(events, s);
  }

  /**
   * In AEC mode `Failed` is not absorbing: here the render worker fails while the processing worker is
   * between two state writes, and the run goes on to report Degraded beside its error.
   */
  lemma FailedIsNotAbsorbing(p: Packet, e: EngineError) returns (events: seq<Event>)
    requires |p.samples| == FRAME_SAMPLES == p.metadata.frames
    ensures RunFrom(INITIAL, events).Some?
    ensures var s := RunFrom(INITIAL, events).value; s.state == Degraded && s.lastError == Some(e)
  {
    var s;
    events, s := StartsSelecting(p);
    hide RunFrom;
    events, s := RenderReports(events, s, e);
    hide Applied, Record;
    events, s := Take(events, s, ProcessingThread, SetState(false));
  }

  lemma InitialRun()
    ensures RunFrom(INITIAL, []) == Some(INITIAL)
  {
  }

  // ---- What a run reports, told from its events ----

  function SideFault(side: Side, t: Thread, c: Choice): Option<EngineError> {
    if side.worker.Awaiting? && c.Received? && c.packet.metadata.frames > 16_384 then
      Some(EngineError(if t == RenderThread then RenderFailure else SourceFailure,
                       "packet exceeds the preallocated capacity"))
    else if (side.worker.Awaiting? || side.worker.StoppingInput?) && c.Fault? then Some(c.error)
    else None
  }

  /** A fault that a thread comes upon: what went wrong outside, where the thread looks. */
  function FaultOf(s: State, e: Event): Option<EngineError> {
    match e.thread
    case ProcessingThread =>
      var p := s.processing;
      if e.choice.Fault? && (p.Selecting? || p.Cancelling? || p.Writing? || p.Diagnosing? || p.Closing?)
      then Some(e.choice.error) else None
    case ControlThread => if s.control.Waiting? && e.choice.Fault? then Some(e.choice.error) else None
    case _ => SideFault(SideOf(s, e.thread), e.thread, e.choice)
  }

  function Listed(e: Option<EngineError>): seq<EngineError> { if e.Some? then [e.value] else [] }

  /** The faults that the threads of a run came upon, in order. */
  function Faults(events: seq<Event>): seq<EngineError> {
    if events == [] then [] else
    var init := events[..|events| - 1];
    var before := RunFrom(INITIAL, init);
    Faults(init) + if before.Some? then Listed(FaultOf(before.value, events[|events| - 1])) else []
  }

  function SideCarries(i: Input): Option<EngineError> {
    match i
    case InputFails(r, _) => Some(r.error)
    case CheckingTerminal(e) => Some(e)
    case _ => None
  }

  /** The error that a thread carries towards the latch or through the failure body. */
  function Carries(s: State, t: Thread): Option<EngineError> {
    match t
    case ProcessingThread =>
      (match s.processing
       case ProcessingFails(r, _) => Some(r.error)
       case CheckingClose(e) => Some(e)
       case _ => None)
    case ControlThread => if s.control.StartFails? then Some(s.control.recording.error) else None
    case _ => SideCarries(SideOf(s, t).worker)
  }

  ghost predicate Known(e: Option<EngineError>, faults: seq<EngineError>) { e.Some? ==> e.value in faults }

  /** Everything carried and latched is a fault that happened; and if one happened, one is carried or latched. */
  ghost predicate FaultsTold(s: State, faults: seq<EngineError>) {
    && (forall t :: Known(Carries(s, t), faults)) && Known(s.past.latched, faults)
    && (s.terminal <==> s.past.latched.Some?)
    && (faults != [] ==> s.terminal || exists t :: Carries(s, t).Some?)
  }

  /** What thread `t` does with its errors in one step; the other threads carry what they did. */
  ghost predicate StepTells(s: State, t: Thread, fault: Option<EngineError>, s': State) {
    && (forall u :: u != t ==> Carries(s', u) == Carries(s, u))
    && (Carries(s', t).Some? ==> Carries(s', t) == Carries(s, t) || Carries(s', t) == fault)
    && (s'.past.latched.Some? ==> s'.past.latched == s.past.latched || s'.past.latched == Carries(s, t))
    && (s'.terminal <==> s'.past.latched.Some?) && (s.terminal ==> s'.terminal)
    && (Carries(s, t).Some? || fault.Some? ==> s'.terminal || Carries(s', t).Some?)
  }

  /** The other threads carry what they did if they did not move. */
  lemma OthersCarry(s: State, t: Thread, s': State)
    requires t != MicrophoneThread ==> s'.microphone.worker == s.microphone.worker
    requires t != RenderThread ==> s'.render.worker == s.render.worker
    requires t != ProcessingThread ==> s'.processing == s.processing
    requires t != ControlThread ==> s'.control == s.control
    ensures forall u :: u != t ==> Carries(s', u) == Carries(s, u)
  {
    hide SideCarries;
  }

  /** A step of the failure body latches its own error, or has lost, and goes on with the same error. */
  lemma RecordTells(s: State, t: Thread, r: Recording)
    requires (s.terminal <==> s.past.latched.Some?) && (!r.Cas? ==> s.terminal)
    ensures var (s', next) := Record(s, t, r);
            && s'.terminal && s'.past.latched.Some?
            && (s'.past.latched == s.past.latched || s'.past.latched == Some(r.error))
            && (next.Some? ==> next.value.error == r.error)
  {
    RecordWorkers(s, t, r);
    hide Apply;
  }

  lemma SideTells(side: Side, t: Thread, stop: bool, terminal: bool, c: Choice)
    requires SideNext(side, t, stop, terminal, c).Some?
    ensures var side', fault := SideNext(side, t, stop, terminal, c).value, SideFault(side, t, c);
            && (SideCarries(side'.worker).Some? ==>
                  SideCarries(side'.worker) == SideCarries(side.worker) || SideCarries(side'.worker) == fault)
            && (SideCarries(side.worker).Some? || fault.Some? ==> terminal || SideCarries(side'.worker).Some?)
  {
    hide Apply, Feed;
  }

  lemma InputTells(s: State, t: Thread, c: Choice)
    requires (t == MicrophoneThread || t == RenderThread) && InputNext(s, t, c).Some?
    requires (s.terminal <==> s.past.latched.Some?) && (Active(s, t).Some? ==> s.terminal)
    ensures StepTells(s, t, FaultOf(s, Event(t, c)), InputNext(s, t, c).value)
  {
    var s', side := InputNext(s, t, c).value, SideOf(s, t);
    if side.worker.InputFails? {
      var r := side.worker.recording;
      RecordTells(s, t, r);
      RecordWorkers(s, t, r);
      hide Record;
      OthersCarry(s, t, s');
    } else {
      SideTells(side, t, s.stop, s.terminal, c);
      hide SideNext, SideCarries, SideFault;
      OthersCarry(s, t, s');
    }
    hide Record, SideNext, SideFault;
  }

  lemma ProcessingTells(s: State, c: Choice)
    requires ProcessingNext(s, c).Some?
    requires (s.terminal <==> s.past.latched.Some?) && (Active(s, ProcessingThread).Some? ==> s.terminal)
    ensures StepTells(s, ProcessingThread, FaultOf(s, Event(ProcessingThread, c)), ProcessingNext(s, c).value)
  {
    var s' := ProcessingNext(s, c).value;
    if s.processing.ProcessingFails? {
      RecordTells(s, ProcessingThread, s.processing.recording);
      RecordWorkers(s, ProcessingThread, s.processing.recording);
      hide Record;
      OthersCarry(s, ProcessingThread, s');
    } else if Takes(s.processing, c) {
      TakesShape(s, c);
      TakesCarryNothing(s, c);
      hide ProcessingTakes, Takes, Apply;
      OthersCarry(s, ProcessingThread, s');
    } else {
      MovesTell(s, c);
      hide ProcessingMoves;
      OthersCarry(s, ProcessingThread, s');
    }
    hide Record, ProcessingTakes, ProcessingMoves, Takes;
  }

  lemma TakesCarryNothing(s: State, c: Choice)
    requires Takes(s.processing, c)
    ensures Carries(s, ProcessingThread).None? && Carries(ProcessingTakes(s, c), ProcessingThread).None?
    ensures FaultOf(s, Event(ProcessingThread, c)).None?
  {
    hide Applied, AfterPop;
  }

  lemma MovesTell(s: State, c: Choice)
    requires ProcessingMoves(s, c).Some? && !Takes(s.processing, c)
    ensures var s', fault := ProcessingMoves(s, c).value, FaultOf(s, Event(ProcessingThread, c));
            && s'.microphone == s.microphone && s'.render == s.render && s'.control == s.control
            && s'.terminal == s.terminal && s'.past.latched == s.past.latched
            && (Carries(s', ProcessingThread).Some? ==>
                  || Carries(s', ProcessingThread) == Carries(s, ProcessingThread)
                  || Carries(s', ProcessingThread) == fault)
            && (Carries(s, ProcessingThread).Some? || fault.Some? ==>
                  s.terminal || Carries(s', ProcessingThread).Some?)
  {
  }

  lemma ControlTells(s: State, c: Choice)
    requires ControlNext(s, c).Some?
    requires (s.terminal <==> s.past.latched.Some?) && (Active(s, ControlThread).Some? ==> s.terminal)
    ensures StepTells(s, ControlThread, FaultOf(s, Event(ControlThread, c)), ControlNext(s, c).value)
  {
    var s' := ControlNext(s, c).value;
    if s.control.StartFails? {
      RecordTells(s, ControlThread, s.control.recording);
      RecordWorkers(s, ControlThread, s.control.recording);
      hide Record;
      OthersCarry(s, ControlThread, s');
    } else {
      ControlQuietTells(s, c);
    }
    hide Record, ControlMoves, StepTells;
  }

  lemma ControlQuietTells(s: State, c: Choice)
    requires ControlNext(s, c).Some? && (s.terminal <==> s.past.latched.Some?) && !s.control.StartFails?
    ensures StepTells(s, ControlThread, FaultOf(s, Event(ControlThread, c)), ControlNext(s, c).value)
  {
    hide Apply, Record;
    OthersCarry(s, ControlThread, ControlNext(s, c).value);
  }

  lemma ToldStep(s: State, t: Thread, fault: Option<EngineError>, s': State, faults: seq<EngineError>)
    requires FaultsTold(s, faults) && StepTells(s, t, fault, s')
    ensures FaultsTold(s', faults + Listed(fault))
  {
    hide Carries;
    forall u ensures Known(Carries(s', u), faults + Listed(fault)) {
      assert Known(Carries(s, u), faults) && Known(Carries(s, t), faults);
    }
    assert Known(Carries(s, t), faults);
    if faults != [] && !s.terminal {
      var u :| Carries(s, u).Some?;
      assert s'.terminal || Carries(s', u).Some?;
    }
  }

  lemma LatchedIsTerminal(s: State, t: Thread)
    requires Latch(s)
    ensures (s.terminal <==> s.past.latched.Some?) && (Active(s, t).Some? ==> s.terminal)
  {
    assert ActiveIsWinner(s, t);
    hide Active, QueueFailed;
  }

  lemma NextTells(s: State, e: Event)
    requires Latch(s) && Next(s, e).Some?
    ensures StepTells(s, e.thread, FaultOf(s, e), Next(s, e).value)
  {
    hide Latch, StepTells, InputNext, ProcessingNext, ControlNext, Active, FaultOf;
    LatchedIsTerminal(s, e.thread);
    match e.thread
    case ProcessingThread => ProcessingTells(s, e.choice);
    case ControlThread => ControlTells(s, e.choice);
    case _ => InputTells(s, e.thread, e.choice);
  }

  lemma NothingTold()
    ensures FaultsTold(INITIAL, [])
  {
    assert forall t :: Carries(INITIAL, t).None?;
  }

  lemma {:induction false} FaultsAreTold(events: seq<Event>)
    requires RunFrom(INITIAL, events).Some?
    ensures FaultsTold(RunFrom(INITIAL, events).value, Faults(events))
  {
    if events == [] {
      NothingTold();
    } else {
      var init, e := events[..|events| - 1], events[|events| - 1];
      var s := RunFrom(INITIAL, init).value;
      FaultsAreTold(init);
      ReachedInv(init);
      hide Flow, Latch, FaultsTold, StepTells, Next, FaultOf;
      NextTells(s, e);
      ToldStep(s, e.thread, FaultOf(s, e), Next(s, e).value, Faults(init));
    }
    hide Next, FaultOf, FaultsTold;
  }

  lemma DoneCarriesNothing(s: State)
    requires s.microphone.worker.InputDone? && s.render.worker.InputDone? && s.processing.ProcessingDone?
    requires s.control.ControlDone?
    ensures forall t :: Carries(s, t).None? && Active(s, t).None?
  {
  }

  /**
   * A run that is over reports an error if and only if one of its threads came upon a fault, and what it
   * reports is one of the faults.
   */
  lemma FailsExactlyOnFault(events: seq<Event>)
    requires RunFrom(INITIAL, events).Some?
    requires var s := RunFrom(INITIAL, events).value;
             && s.microphone.worker.InputDone? && s.render.worker.InputDone?
             && s.processing.ProcessingDone? && s.control.ControlDone?
    ensures var s := RunFrom(INITIAL, events).value;
            && (s.lastError.Some? <==> Faults(events) != [])
            && (s.lastError.Some? ==> s.lastError.value in Faults(events))
  {
    FirstErrorIsReported(events);
    FaultsAreTold(events);
    DoneCarriesNothing(RunFrom(INITIAL, events).value);
    hide RunFrom, Faults, Carries, Active, QueueFailed;
  }

  /** No packet beyond the capacity was ever used, on either side. */
  ghost predicate Fits(side: Side) { forall p :: p in side.packets ==> p.metadata.frames <= 16_384 }

  lemma SideFits(side: Side, t: Thread, stop: bool, terminal: bool, c: Choice)
    requires Fits(side) && SideNext(side, t, stop, terminal, c).Some?
    ensures Fits(SideNext(side, t, stop, terminal, c).value)
  {
    hide Apply, Feed;
  }

  lemma OthersFit(s: State, e: Event)
    requires Next(s, e).Some? && (e.thread == ProcessingThread || e.thread == ControlThread)
    ensures Next(s, e).value.microphone.packets == s.microphone.packets
    ensures Next(s, e).value.render.packets == s.render.packets
  {
    hide Apply, AfterPop;
  }

  lemma {:induction false} PacketsFit(events: seq<Event>)
    requires RunFrom(INITIAL, events).Some?
    ensures var s := RunFrom(INITIAL, events).value; Fits(s.microphone) && Fits(s.render)
  {
    if events != [] {
      var init, e := events[..|events| - 1], events[|events| - 1];
      var s := RunFrom(INITIAL, init).value;
      PacketsFit(init);
      if e.thread == ProcessingThread || e.thread == ControlThread {
        OthersFit(s, e);
      } else {
        InputFits(s, e.thread, e.choice);
      }
    }
    hide ProcessingNext, ControlNext, InputNext;
  }

  lemma InputFits(s: State, t: Thread, c: Choice)
    requires InputNext(s, t, c).Some? && Fits(s.microphone) && Fits(s.render)
    ensures Fits(InputNext(s, t, c).value.microphone) && Fits(InputNext(s, t, c).value.render)
  {
    if !SideOf(s, t).worker.InputFails? {
      SideFits(SideOf(s, t), t, s.stop, s.terminal, c);
    }
    hide SideNext, Apply;
  }

  // ---- The state shown while nothing failed ----

  /** What the processing worker's last own state write was, if it made one. */
  function LastWrite(events: seq<Event>): Option<EngineState> {
    if events == [] then None else
    var init, e := events[..|events| - 1], events[|events| - 1];
    var before := RunFrom(INITIAL, init);
    if before.Some? && OwnWrite(before.value, e) then
      Some(if before.value.processing.Selecting? && e.choice.running then RunningAec else Degraded)
    else LastWrite(init)
  }

  /** Before a failure is published and a stop writes: the worker's last write, or what start has come to. */
  ghost predicate ShownIs(s: State, last: Option<EngineState>) {
    && (last.Some? ==> last.value == RunningAec || last.value == Degraded)
    && (s.lastError.None? && (s.control.Waiting? || s.control.StartFails? || s.control.Idle? || s.control.Marking?) ==>
          if last.Some? then s.state == last.value
          else if s.control.Waiting? || s.control.StartFails? then s.state == Starting
          else s.state == RunningAec || (s.terminal && s.state == Starting))
  }

  lemma ControlShows(s: State, c: Choice, last: Option<EngineState>)
    requires ShownIs(s, last) && ControlNext(s, c).Some?
    ensures ShownIs(ControlNext(s, c).value, last)
  {
    hide Applied;
  }

  lemma RecordShows(s: State, t: Thread, r: Recording)
    ensures var s' := Record(s, t, r).0;
            && (s'.lastError.None? ==> s'.state == s.state && s.lastError.None?)
            && (s.terminal ==> s'.terminal)
  {
    hide Applied;
  }

  lemma InputShows(s: State, t: Thread, c: Choice, last: Option<EngineState>)
    requires ShownIs(s, last) && InputNext(s, t, c).Some? && (t == MicrophoneThread || t == RenderThread)
    ensures ShownIs(InputNext(s, t, c).value, last)
  {
    if SideOf(s, t).worker.InputFails? {
      RecordShows(s, t, SideOf(s, t).worker.recording);
      RecordWorkers(s, t, SideOf(s, t).worker.recording);
    }
    hide Record, SideNext;
  }

  lemma ProcessingShows(s: State, c: Choice, last: Option<EngineState>)
    requires ShownIs(s, last) && ProcessingNext(s, c).Some?
    ensures var own := OwnWrite(s, Event(ProcessingThread, c));
            ShownIs(ProcessingNext(s, c).value,
                    if own then Some(if s.processing.Selecting? && c.running then RunningAec else Degraded) else last)
  {
    if s.processing.ProcessingFails? {
      RecordShows(s, ProcessingThread, s.processing.recording);
      RecordWorkers(s, ProcessingThread, s.processing.recording);
    } else if Takes(s.processing, c) {
      TakesShape(s, c);
      hide ProcessingTakes;
    } else {
      hide ProcessingTakes, Takes;
    }
    hide Record, ProcessingTakes, Applied;
  }

  /**
   * Until a failure is published or a stop writes, the engine shows the processing worker's last state write,
   * which start never overwrites, or else what start has come to.
   */
  lemma {:induction false} ShownIsExact(events: seq<Event>)
    requires RunFrom(INITIAL, events).Some?
    ensures ShownIs(RunFrom(INITIAL, events).value, LastWrite(events))
  {
    if events != [] {
      var init, e := events[..|events| - 1], events[|events| - 1];
      var s := RunFrom(INITIAL, init).value;
      ShownIsExact(init);
      hide ShownIs, InputNext, ProcessingNext, ControlNext;
      match e.thread
      case ProcessingThread => ProcessingShows(s, e.choice, LastWrite(init));
      case ControlThread => ControlShows(s, e.choice, LastWrite(init));
      case _ => InputShows(s, e.thread, e.choice, LastWrite(init));
    }
    hide InputNext, ProcessingNext, ControlNext;
  }

  // ---- Cleaning up ----

  predicate OpensInput(s: State, e: Event, t: Thread) {
    e.thread == t && SideOf(s, t).worker.Opening? && !e.choice.Fault?
  }

  predicate StopsInput(s: State, e: Event, t: Thread) { e.thread == t && SideOf(s, t).worker.StoppingInput? }

  function Starts(events: seq<Event>, t: Thread): nat {
    if events == [] then 0 else
    var init := events[..|events| - 1];
    var before := RunFrom(INITIAL, init);
    Starts(init, t) + Held(before.Some? && OpensInput(before.value, events[|events| - 1], t))
  }

  function Stops(events: seq<Event>, t: Thread): nat {
    if events == [] then 0 else
    var init := events[..|events| - 1];
    var before := RunFrom(INITIAL, init);
    Stops(init, t) + Held(before.Some? && StopsInput(before.value, events[|events| - 1], t))
  }

  function Held(yes: bool): nat { if yes then 1 else 0 }

  predicate HasInput(i: Input) {
    i.LoopHead? || i.Awaiting? || i.Pushing? || i.Counting? || i.StoppingInput? || (i.InputFails? && !i.stopped)
  }

  lemma SideReleases(side: Side, t: Thread, stop: bool, terminal: bool, c: Choice)
    requires SideNext(side, t, stop, terminal, c).Some?
    ensures var side' := SideNext(side, t, stop, terminal, c).value;
            && !side'.worker.Opening?
            && Held(HasInput(side'.worker)) + Held(side.worker.StoppingInput?)
               == Held(HasInput(side.worker)) + Held(side.worker.Opening? && !c.Fault?)
  {
    hide Apply, Feed;
  }

  lemma InputReleases(s: State, t: Thread, c: Choice)
    requires (t == MicrophoneThread || t == RenderThread) && InputNext(s, t, c).Some?
    ensures var s', e := InputNext(s, t, c).value, Event(t, c);
            && !SideOf(s', t).worker.Opening?
            && Held(HasInput(SideOf(s', t).worker)) + Held(StopsInput(s, e, t))
               == Held(HasInput(SideOf(s, t).worker)) + Held(OpensInput(s, e, t))
            && (t == MicrophoneThread ==> s'.render.worker == s.render.worker)
            && (t == RenderThread ==> s'.microphone.worker == s.microphone.worker)
  {
    hide Record, SideNext;
    if SideOf(s, t).worker.InputFails? {
      RecordWorkers(s, t, SideOf(s, t).worker.recording);
    } else {
      SideReleases(SideOf(s, t), t, s.stop, s.terminal, c);
    }
  }

  lemma OthersRelease(s: State, e: Event)
    requires Next(s, e).Some? && (e.thread == ProcessingThread || e.thread == ControlThread)
    ensures Next(s, e).value.microphone.worker == s.microphone.worker
    ensures Next(s, e).value.render.worker == s.render.worker
  {
    hide Apply, AfterPop;
  }

  /**
   * Whatever fails and whoever stops: each input is stopped exactly once if it was opened, and not before its
   * worker is through with it.
   */
  lemma {:induction false} InputsAreReleased(events: seq<Event>, t: Thread)
    requires RunFrom(INITIAL, events).Some? && (t == MicrophoneThread || t == RenderThread)
    ensures var worker := SideOf(RunFrom(INITIAL, events).value, t).worker;
            && Starts(events, t) == Stops(events, t) + Held(HasInput(worker))
            && Starts(events, t) <= 1 && (worker.Opening? ==> Starts(events, t) == 0)
  {
    if events != [] {
      var init, e := events[..|events| - 1], events[|events| - 1];
      var s := RunFrom(INITIAL, init).value;
      InputsAreReleased(init, t);
      hide InputNext, ProcessingNext, ControlNext, HasInput;
      if e.thread == ProcessingThread || e.thread == ControlThread {
        OthersRelease(s, e);
      } else {
        InputReleases(s, e.thread, e.choice);
      }
    }
    hide InputNext, ProcessingNext, ControlNext;
  }
}
