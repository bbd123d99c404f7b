/**
 * The loop of `aec_processing_worker` in crates/mini-aec-engine/src/runtime.rs, for every behaviour of
 * the render queue, the canceller, its factory, the clock and the sink.
 */
module AecLoop {
  import opened AudioTypes
  import opened EngineTypes
  import opened TimedFraming
  import opened Pairing
  import Framing

  const MAXIMUM_SKEW_100NS: nat := 1_000_000
  const MAX_CONSECUTIVE_RENDER_MISSES: nat := 50
  const HEALTHY_RECOVERY_FRAMES: nat := 10
  const MAX_CONSECUTIVE_AEC_FAILURES: nat := 3
  const DIAGNOSTICS_INTERVAL: nat := 100
  const U32_MAX: nat := 0xFFFF_FFFF

  function Zeros(): seq<Sample> { seq(FRAME_SAMPLES, _ => Finite(0.0)) }

  type SampleBlock = s: seq<Sample> | |s| == FRAME_SAMPLES witness Zeros()

  const SILENCE: SampleBlock := Zeros()

  /** The part of the engine snapshot that the processing worker maintains. */
  datatype Snapshot = Snapshot(
    state: EngineState, degradation: Option<DegradationReason>,
    paired: nat, silent: nat, stale: nat, delta: Option<int>, maximumSkew: nat,
    alignmentResets: nat, epoch: nat, aecResets: nat, aecRebuilds: nat,
    processed: nat, invalidOutputs: nat, deadlineMisses: nat,
    accepted: nat, sinkFailures: nat)

  const FRESH_SNAPSHOT :=
    Snapshot(Starting, None, 0, 0, 0, None, 0, 0, 1, 0, 0, 0, 0, 0, 0, 0)

  /** The worker at its loop head. */
  datatype Worker = Worker(
    render: Render, sequence: nat, skewMisses: nat, aecFailures: nat, healthy: nat, snap: Snapshot)

  /** The worker after start-up popped its first render frame, or found none. */
  function Start(first: Option<TimedFrame>): Worker {
    Worker(Render(first, first.None?), 0, 0, 0, 0, FRESH_SNAPSHOT)
  }

  /** One microphone frame, and what the canceller, the clock and the sink do with it. */
  datatype Input = Input(
    microphone: TimedFrame, processOk: bool, output: SampleBlock, overBudget: bool, writeOk: bool, diagnosticsOk: bool)

  datatype Exit = RebuildFailed | SkewExceeded | AecExhausted | SinkRejected | DiagnosticsFailed

  /** What an iteration did, as far as it got; `fed` is what it gave the canceller, render reference first. */
  datatype Record = Record(
    selected: Option<Selected>, fed: Option<(seq<real>, seq<real>)>, aecFailed: bool, running: bool,
    written: Option<(nat, seq<int>)>)

  datatype Iterated = Iterated(worker: Worker, answers: Answers, record: Record, exit: Option<Exit>)

  predicate InvalidOutput(output: SampleBlock) { exists k :: 0 <= k < |output| && output[k].NonFinite? }

  predicate AecFailed(x: Input) { !x.processOk || InvalidOutput(x.output) }

  function Encoded(output: SampleBlock): seq<int> { Map(Framing.ToPcm, output) }

  function Increment(n: nat): nat { Min(n + 1, U32_MAX) }

  /** The snapshot after `n` rebuilds caused by discontinuities. */
  function Realigned(snap: Snapshot, n: nat): Snapshot {
    if n == 0 then snap else
    snap.(aecResets := snap.aecResets + n, aecRebuilds := snap.aecRebuilds + n,
          alignmentResets := snap.alignmentResets + n, epoch := snap.epoch + n,
          state := Degraded, degradation := Some(AecReset))
  }

  /** The snapshot after a selection came back with an answer. */
  function Recorded(snap: Snapshot, s: Selected): Snapshot {
    var skew := if s.delta.Some? then Max(snap.maximumSkew, Max(s.delta.value, -s.delta.value)) else snap.maximumSkew;
    snap.(delta := s.delta, maximumSkew := skew,
          paired := snap.paired + |Listed(s.paired)|, silent := snap.silent + 1 - |Listed(s.paired)|)
  }

  /** The snapshot after a scan dropped some frames and rebuilt for some marked ones. */
  function Scanned(snap: Snapshot, stale: nat, rebuilds: nat): Snapshot {
    Realigned(snap.(stale := snap.stale + stale), rebuilds)
  }

  function Judged(w: Worker, s: Selected): Worker {
    if s.paired.Some? then
      var healthy := Increment(w.healthy);
      w.(skewMisses := 0, healthy := healthy,
         snap := if healthy < HEALTHY_RECOVERY_FRAMES then w.snap
                 else w.snap.(state := RunningAec, degradation := None))
    else
      w.(skewMisses := if s.delta.Some? then Increment(w.skewMisses) else 0, healthy := 0,
         snap := w.snap.(state := Degraded, degradation := Some(RenderReferenceMissing)))
  }

  function Processed(w: Worker, x: Input): Worker {
    if AecFailed(x) then
      w.(aecFailures := Increment(w.aecFailures), healthy := 0,
         snap := w.snap.(invalidOutputs := w.snap.invalidOutputs + if InvalidOutput(x.output) then 1 else 0,
                         state := Degraded, degradation := Some(AecReset)))
    else w.(aecFailures := 0, snap := w.snap.(processed := w.snap.processed + 1))
  }

  function Timed(snap: Snapshot, x: Input): Snapshot {
    if x.overBudget then
      snap.(deadlineMisses := snap.deadlineMisses + 1, state := Degraded, degradation := Some(ProcessingDeadline))
    else snap
  }

  function Written(w: Worker): Worker {
    w.(sequence := w.sequence + 1, snap := w.snap.(accepted := w.snap.accepted + 1))
  }

  datatype Echoed = Echoed(worker: Worker, answers: Answers, exit: Option<Exit>)

  /** The canceller call: a failure counts, silences the frame and rebuilds, or ends the run. */
  function Echo(w: Worker, a: Answers, x: Input): Echoed {
    var w' := Processed(w, x);
    if !AecFailed(x) then Echoed(w', a, None)
    else if w'.aecFailures >= MAX_CONSECUTIVE_AEC_FAILURES then Echoed(w', a, Some(AecExhausted))
    else
      var (created, a') := NextCreate(a);
      if !created then Echoed(w', a', Some(RebuildFailed)) else
      var snap := w'.snap.(aecResets := w'.snap.aecResets + 1, aecRebuilds := w'.snap.aecRebuilds + 1);
      Echoed(w'.(snap := snap), a', None)
  }

  /** The deadline check and the write of one frame. */
  function Deliver(w: Worker, x: Input): (Worker, Option<Exit>) {
    var timed := w.(snap := Timed(w.snap, x));
    if !x.writeOk then
      (timed.(snap := timed.snap.(sinkFailures := timed.snap.sinkFailures + 1)), Some(SinkRejected))
    else
      var done := Written(timed);
      (done, if done.sequence % DIAGNOSTICS_INTERVAL == 0 && !x.diagnosticsOk then Some(DiagnosticsFailed) else None)
  }

  function NoReference(): seq<real> { seq(FRAME_SAMPLES, _ => 0.0) }

  /** The render samples of a selection: those of the paired frame, or silence. */
  function Reference(s: Selected): seq<real> { if s.paired.Some? then s.paired.value.samples else NoReference() }

  /** What a selection answers: the reference, whether it is a paired one, and the delta. */
  function Answer(s: Selected): Option<(seq<real>, bool, Option<int>)> {
    if s.failed then None else Some((Reference(s), s.paired.Some?, s.delta))
  }

  function Finish(w: Worker, a: Answers, x: Input, s: Selected, running: bool): Iterated {
    var echoed := Echo(w, a, x);
    var record := Record(Some(s), Some((Reference(s), x.microphone.samples)), AecFailed(x), running, None);
    if echoed.exit.Some? then Iterated(echoed.worker, echoed.answers, record, echoed.exit) else
    var (done, exit) := Deliver(echoed.worker, x);
    var frame := (w.sequence, Encoded(if AecFailed(x) then SILENCE else x.output));
    Iterated(done, echoed.answers, if x.writeOk then record.(written := Some(frame)) else record, exit)
  }

  /** The worker after a selection, which a number of realignments preceded. */
  function Searched(w: Worker, s: Selected, resets: nat): Worker {
    w.(render := s.render, snap := Scanned(Realigned(w.snap, resets), |s.stale|, s.rebuilds))
  }

  /** The worker once the selection is counted and judged. */
  function Assessed(w: Worker, s: Selected, resets: nat): Worker {
    var searched := Searched(w, s, resets);
    Judged(searched.(snap := Recorded(searched.snap, s)), s)
  }

  function Iterate(w: Worker, a: Answers, x: Input): Iterated {
    var (created, a') := if x.microphone.reset then NextCreate(a) else (true, a);
    if !created then Iterated(w, a', Record(None, None, false, false, None), Some(RebuildFailed)) else
    var resets := if x.microphone.reset then 1 else 0;
    var s := Select(x.microphone.qpc, w.render, a');
    if s.failed then
      Iterated(Searched(w, s, resets), s.answers, Record(Some(s), None, false, false, None), Some(RebuildFailed))
    else
    var judged := Assessed(w, s, resets);
    var running := s.paired.Some? && judged.healthy >= HEALTHY_RECOVERY_FRAMES;
    if judged.skewMisses >= MAX_CONSECUTIVE_RENDER_MISSES then
      Iterated(judged, s.answers, Record(Some(s), None, false, running, None), Some(SkewExceeded))
    else Finish(judged, s.answers, x, s, running)
  }

  datatype Progress = Progress(worker: Worker, answers: Answers, records: seq<Record>, exit: Option<Exit>)

  /** The loop over a list of inputs; a stop request or the end of the microphone queue ends the list. */
  function RunLoop(w: Worker, a: Answers, inputs: seq<Input>): Progress {
    if inputs == [] then Progress(w, a, [], None) else
    var before := RunLoop(w, a, inputs[..|inputs| - 1]);
    if before.exit.Some? then before else
    var step := Iterate(before.worker, before.answers, inputs[|inputs| - 1]);
    Progress(step.worker, step.answers, before.records + [step.record], step.exit)
  }

  // ---- The imperative worker, proved to take exactly these steps ----

  class AecProcessor {
    var render: Option<TimedFrame>
    var renderWaitExhausted: bool
    var sequence: nat
    var consecutiveSkewMisses: nat
    var consecutiveAecFailures: nat
    var healthyFrames: nat
    var snapshot: Snapshot
    var answers: Answers

    ghost function Value(): Worker
      reads this
    {
      Worker(Render(render, renderWaitExhausted), sequence, consecutiveSkewMisses, consecutiveAecFailures,
             healthyFrames, snapshot)
    }

    constructor (first: Option<TimedFrame>, answers: Answers)
      ensures Value() == Start(first) && this.answers == answers
    {
      render, renderWaitExhausted := first, first.None?;
      sequence, consecutiveSkewMisses, consecutiveAecFailures, healthyFrames := 0, 0, 0, 0;
      snapshot := FRESH_SNAPSHOT;
      this.answers := answers;
    }

    method PopRender() returns (frame: Option<TimedFrame>)
      modifies this`answers
      ensures (frame, answers) == NextPop(old(answers))
    {
      frame := None;
      if answers.pops != [] {
        frame := answers.pops[0];
        answers := answers.(pops := answers.pops[1..]);
      }
    }

    method RebuildEcho(alignmentReset: bool) returns (ok: bool)
      modifies this`answers, this`snapshot
      ensures (ok, answers) == NextCreate(old(answers))
      ensures snapshot ==
        if !ok then old(snapshot)
        else if alignmentReset then Realigned(old(snapshot), 1)
        else old(snapshot).(aecResets := old(snapshot).aecResets + 1, aecRebuilds := old(snapshot).aecRebuilds + 1,
                            state := Degraded, degradation := Some(AecReset))
    {
      ok := true;
      if answers.creates != [] {
        ok := answers.creates[0];
        answers := answers.(creates := answers.creates[1..]);
      }
      if ok {
        snapshot := snapshot.(aecResets := snapshot.aecResets + 1, aecRebuilds := snapshot.aecRebuilds + 1);
        if alignmentReset {
          snapshot := snapshot.(alignmentResets := snapshot.alignmentResets + 1, epoch := snapshot.epoch + 1);
        }
        snapshot := snapshot.(state := Degraded, degradation := Some(AecReset));
      }
    }

    /** One look at the held render frame: None when it was stale and the next one is to be examined. */
    method ExamineCandidate(microphone: TimedFrame)
      returns (selection: Option<Option<(seq<real>, bool, Option<int>)>>, ghost rebuilds: nat)
      requires render.Some?
      modifies this`render, this`renderWaitExhausted, this`answers, this`snapshot
      ensures var r, before := Render(render, renderWaitExhausted), Render(old(render), old(renderWaitExhausted));
              var s := Scan(microphone.qpc, before, old(answers));
              match selection
              case None =>
                && s == After([old(render).value], rebuilds, Scan(microphone.qpc, r, answers))
                && snapshot == Scanned(old(snapshot), 1, rebuilds)
                && |answers.pops| + |Listed(render)| < |old(answers).pops| + 1
              case Some(answer) =>
                && s.render == r && s.answers == answers && s.stale == [] && s.rebuilds == rebuilds
                && answer == Answer(s)
                && snapshot == Scanned(old(snapshot), 0, rebuilds)
    {
      hide Scan, NextPop, NextCreate, SignedDelta, Realigned;
      var candidate := render.value;
      ghost var before := Render(render, renderWaitExhausted);
      LookAt(microphone.qpc, before, answers);
      ScannedAs(snapshot);
      rebuilds := 0;
      if candidate.reset {
        var ok := RebuildEcho(true);
        if !ok {
          return Some(None), 0;
        }
        rebuilds := 1;
      }
      PoppedLess(answers);
      var delta := SignedDelta(candidate.qpc, microphone.qpc);
      if delta < -ALIGNMENT_TOLERANCE_100NS {
        snapshot := snapshot.(stale := snapshot.stale + 1);
        render := PopRender();
        return None, rebuilds;
      }
      if Max(delta, -delta) > MAXIMUM_SKEW_100NS {
        return Some(Some((NoReference(), false, Some(delta)))), rebuilds;
      }
      if delta <= ALIGNMENT_TOLERANCE_100NS {
        render := PopRender();
        renderWaitExhausted := false;
        return Some(Some((candidate.samples, true, Some(delta)))), rebuilds;
      }
      return Some(Some((NoReference(), false, Some(delta)))), rebuilds;
    }

    /** The loop of `select_render_frame`: it ends at the first frame that is not stale. */
    method ScanRenderFrames(microphone: TimedFrame)
      returns (selection: Option<(seq<real>, bool, Option<int>)>, ghost s: Selected)
      modifies this`render, this`renderWaitExhausted, this`answers, this`snapshot
      ensures s == Scan(microphone.qpc, Render(old(render), old(renderWaitExhausted)), old(answers))
      ensures Render(render, renderWaitExhausted) == s.render && answers == s.answers
      ensures snapshot == Scanned(old(snapshot), |s.stale|, s.rebuilds)
      ensures selection == Answer(s)
    {
      hide Scan, Scanned, SignedDelta, NextPop;
      s := Scan(microphone.qpc, Render(render, renderWaitExhausted), answers);
      ghost var stale: seq<TimedFrame>, total: nat := [], 0;
      selection := Some((NoReference(), false, None));
      AfterNothing(s);
      ScannedNothing(snapshot);
      while render.Some?
        invariant selection == Some((NoReference(), false, None))
        invariant s == After(stale, total, Scan(microphone.qpc, Render(render, renderWaitExhausted), answers))
        invariant snapshot == Scanned(old(snapshot), |stale|, total)
        decreases |answers.pops| + |Listed(render)|
      {
        ghost var candidate := render.value;
        ghost var rebuilds;
        var answer;
        answer, rebuilds := ExamineCandidate(microphone);
        ScannedScanned(old(snapshot), |stale|, total, if answer.Some? then 0 else 1, rebuilds);
        if answer.Some? {
          assert stale + [] == stale;
          selection := answer.value;
          break;
        }
        AfterAfter(stale, total, candidate, rebuilds,
                   Scan(microphone.qpc, Render(render, renderWaitExhausted), answers));
        hide After;
        total := total + rebuilds;
        stale := stale + [candidate];
      }
      if render.None? {
        ScanNothing(microphone.qpc, Render(render, renderWaitExhausted), answers);
      }
      assert stale + [] == stale;
    }

    /** `select_render_frame`: fails with None when a canceller cannot be rebuilt. */
    method SelectRenderFrame(microphone: TimedFrame)
      returns (selection: Option<(seq<real>, bool, Option<int>)>, ghost s: Selected)
      modifies this`render, this`renderWaitExhausted, this`answers, this`snapshot
      ensures s == Select(microphone.qpc, Render(old(render), old(renderWaitExhausted)), old(answers))
      ensures Render(render, renderWaitExhausted) == s.render && answers == s.answers
      ensures snapshot == Scanned(old(snapshot), |s.stale|, s.rebuilds)
      ensures selection == Answer(s)
    {
      if render.None? {
        render := PopRender();
        if render.None? {
          renderWaitExhausted := true;
        } else {
          renderWaitExhausted := false;
        }
      }
      selection, s := ScanRenderFrames(microphone);
    }

    /** Counts a selection and judges the health of the run by it. */
    method RecordSelection(paired: bool, delta: Option<int>, ghost s: Selected) returns (ghost running: bool)
      requires paired == s.paired.Some? && delta == s.delta
      modifies this`snapshot, this`consecutiveSkewMisses, this`healthyFrames
      ensures var recorded := old(Value()).(snap := Recorded(old(snapshot), s));
              Value() == Judged(recorded, s)
      ensures running == (paired && healthyFrames >= HEALTHY_RECOVERY_FRAMES)
    {
      snapshot := snapshot.(delta := delta);
      if delta.Some? {
        snapshot := snapshot.(maximumSkew := Max(snapshot.maximumSkew, Max(delta.value, -delta.value)));
      }
      if paired {
        snapshot := snapshot.(paired := snapshot.paired + 1);
      } else {
        snapshot := snapshot.(silent := snapshot.silent + 1);
      }
      running := false;
      if paired {
        consecutiveSkewMisses := 0;
        healthyFrames := Increment(healthyFrames);
        if healthyFrames >= HEALTHY_RECOVERY_FRAMES {
          snapshot := snapshot.(state := RunningAec, degradation := None);
          running := true;
        }
      } else {
        if delta.Some? {
          consecutiveSkewMisses := Increment(consecutiveSkewMisses);
        } else {
          consecutiveSkewMisses := 0;
        }
        healthyFrames := 0;
        snapshot := snapshot.(state := Degraded, degradation := Some(RenderReferenceMissing));
      }
    }

    /** The canceller gets the reference before the microphone; what it answers is up to `x`. */
    method RunEcho(reference: seq<real>, microphone: seq<real>, x: Input)
      returns (exit: Option<Exit>, output: SampleBlock, ghost fed: (seq<real>, seq<real>))
      modifies this`snapshot, this`answers, this`consecutiveAecFailures, this`healthyFrames
      ensures Echoed(Value(), answers, exit) == Echo(old(Value()), old(answers), x)
      ensures output == if AecFailed(x) then SILENCE else x.output
      ensures fed == (reference, microphone)
    {
      fed := (reference, microphone);
      output := x.output;
      var invalidOutput := InvalidOutput(output);
      if x.processOk && !invalidOutput {
        consecutiveAecFailures := 0;
        snapshot := snapshot.(processed := snapshot.processed + 1);
        return None, output, fed;
      }
      consecutiveAecFailures := Increment(consecutiveAecFailures);
      healthyFrames := 0;
      output := SILENCE;
      snapshot := snapshot.(invalidOutputs := snapshot.invalidOutputs + if invalidOutput then 1 else 0);
      snapshot := snapshot.(state := Degraded, degradation := Some(AecReset));
      if consecutiveAecFailures >= MAX_CONSECUTIVE_AEC_FAILURES {
        return Some(AecExhausted), output, fed;
      }
      var ok := RebuildEcho(false);
      exit := if ok then None else Some(RebuildFailed);
    }

    method WriteFrame(x: Input, output: SampleBlock) returns (exit: Option<Exit>, pcm: seq<int>)
      modifies this`snapshot, this`sequence
      ensures (Value(), exit) == Deliver(old(Value()), x)
      ensures pcm == Encoded(output)
    {
      if x.overBudget {
        snapshot := snapshot.(deadlineMisses := snapshot.deadlineMisses + 1);
        snapshot := snapshot.(state := Degraded, degradation := Some(ProcessingDeadline));
      }
      pcm := Encoded(output);
      if !x.writeOk {
        snapshot := snapshot.(sinkFailures := snapshot.sinkFailures + 1);
        return Some(SinkRejected), pcm;
      }
      sequence := sequence + 1;
      snapshot := snapshot.(accepted := snapshot.accepted + 1);
      exit := if sequence % DIAGNOSTICS_INTERVAL == 0 && !x.diagnosticsOk then Some(DiagnosticsFailed) else None;
    }

    /** One pass through the loop body. */
    method ProcessFrame(x: Input) returns (exit: Option<Exit>, ghost record: Record)
      modifies this
      ensures Iterated(Value(), answers, record, exit) == Iterate(old(Value()), old(answers), x)
    {
      hide Select, NextCreate, Scanned, Recorded, Judged, Echo, Deliver, Encoded, AecFailed, Reference;
      record := Record(None, None, false, false, None);
      if x.microphone.reset {
        var ok := RebuildEcho(true);
        if !ok {
          return Some(RebuildFailed), record;
        }
      }
      var selection;
      ghost var s;
      selection, s := SelectRenderFrame(x.microphone);
      record := Record(Some(s), None, false, false, None);
      if selection.None? {
        return Some(RebuildFailed), record;
      }
      ghost var running;
      running := RecordSelection(selection.value.1, selection.value.2, s);
      record := record.(running := running);
      if consecutiveSkewMisses >= MAX_CONSECUTIVE_RENDER_MISSES {
        return Some(SkewExceeded), record;
      }
      ghost var number := sequence;
      var output, pcm;
      ghost var fed;
      exit, output, fed := RunEcho(selection.value.0, x.microphone.samples, x);
      record := record.(fed := Some(fed), aecFailed := AecFailed(x));
      if exit.Some? {
        return;
      }
      exit, pcm := WriteFrame(x, output);
      if x.writeOk {
        record := record.(written := Some((number, pcm)));
      }
    }

    /** The loop, until a failure ends it or its inputs do. */
    method ProcessAll(inputs: seq<Input>) returns (exit: Option<Exit>, ghost records: seq<Record>)
      modifies this
      ensures Progress(Value(), answers, records, exit) == RunLoop(old(Value()), old(answers), inputs)
    {
      exit, records := None, [];
      for i := 0 to |inputs|
        invariant exit == None
        invariant Progress(Value(), answers, records, exit) == RunLoop(old(Value()), old(answers), inputs[..i])
      {
        assert inputs[..i + 1][..i] == inputs[..i];
        ghost var record;
        exit, record := ProcessFrame(inputs[i]);
        records := records + [record];
        if exit.Some? {
          RunStaysExited(old(Value()), old(answers), inputs, i + 1);
          return;
        }
      }
      assert inputs[..|inputs|] == inputs;
    }
  }

  lemma {:induction false} RunStaysExited(w: Worker, a: Answers, inputs: seq<Input>, n: nat)
    requires n <= |inputs| && RunLoop(w, a, inputs[..n]).exit.Some?
    ensures RunLoop(w, a, inputs) == RunLoop(w, a, inputs[..n])
    decreases |inputs|
  {
    if n == |inputs| {
      assert inputs[..n] == inputs;
    } else {
      var init := inputs[..|inputs| - 1];
      assert init[..n] == inputs[..n];
      RunStaysExited(w, a, init, n);
    }
  }

  lemma AfterNothing(s: Selected)
    ensures After([], 0, s) == s
  {
    assert [] + s.stale == s.stale;
  }

  lemma ScannedNothing(snap: Snapshot)
    ensures Scanned(snap, 0, 0) == snap
  {
  }

  lemma ScannedAs(snap: Snapshot)
    ensures Scanned(snap, 1, 0) == snap.(stale := snap.stale + 1)
    ensures Scanned(snap, 0, 1) == Realigned(snap, 1) && Scanned(snap, 0, 0) == snap
    ensures Scanned(snap, 1, 1) == Realigned(snap, 1).(stale := Realigned(snap, 1).stale + 1)
  {
  }

  lemma ScannedScanned(snap: Snapshot, stale: nat, n: nat, more: nat, k: nat)
    ensures Scanned(Scanned(snap, stale, n), more, k) == Scanned(snap, stale + more, n + k)
  {
  }

  lemma AfterAfter(stale: seq<TimedFrame>, n: nat, f: TimedFrame, k: nat, rest: Selected)
    ensures After(stale, n, After([f], k, rest)) == After(stale + [f], n + k, rest)
  {
    assert stale + ([f] + rest.stale) == stale + [f] + rest.stale;
  }
}
