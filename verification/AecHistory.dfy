/**
 * What a run of the AEC processing loop shows, counts and answers, told from its inputs and records alone:
 * the state and its reason, the rebuilds, what the canceller was fed, why a run ended and when it waited.
 */
module AecHistory {
  import opened AudioTypes
  import opened EngineTypes
  import opened TimedFraming
  import opened Pairing
  import opened AecLoop
  import opened AecTheorems

  // ---- The state shown ----

  predicate IsReset(x: Input) { x.microphone.reset }

  /** How many marked render frames a record's selection looked at. */
  function MarkedIn(r: Record): nat {
    if r.selected.Some? then Count(IsMarked, LookedAt(r.selected.value)) else 0
  }

  /** The canceller was rebuilt for a discontinuity, on either side. */
  predicate Rebuilt(r: Record, x: Input) { x.microphone.reset || MarkedIn(r) > 0 }

  /** What an iteration shows: its last cause, or what was shown before. */
  function NextShown(
      before: (EngineState, Option<DegradationReason>), recovered: bool, r: Record, x: Input)
    : (EngineState, Option<DegradationReason>)
  {
    if x.overBudget then (Degraded, Some(ProcessingDeadline))
    else if Broke(x) then (Degraded, Some(AecReset))
    else if !IsPaired(r) then (Degraded, Some(RenderReferenceMissing))
    else if recovered then (RunningAec, None)
    else if Rebuilt(r, x) then (Degraded, Some(AecReset))
    else before
  }

  /** The state and reason that a history of iterations shows. */
  ghost function Shown(records: seq<Record>, inputs: seq<Input>): (EngineState, Option<DegradationReason>)
    requires |records| == |inputs|
  {
    if records == [] then (Starting, None) else
    var n := |records| - 1;
    NextShown(Shown(records[..n], inputs[..n]), LastAll(IsGood, records, 10), records[n], inputs[n])
  }

  function ShownBy(snap: Snapshot): (EngineState, Option<DegradationReason>) { (snap.state, snap.degradation) }

  lemma AssessedShown(w: Worker, s: Selected, resets: nat)
    ensures ShownBy(Assessed(w, s, resets).snap)
         == (if s.paired.None? then (Degraded, Some(RenderReferenceMissing))
             else if Increment(w.healthy) >= 10 then (RunningAec, None)
             else if resets > 0 || s.rebuilds > 0 then (Degraded, Some(AecReset))
             else ShownBy(w.snap))
  {
  }

  lemma FinishShown(w: Worker, a: Answers, x: Input, s: Selected, running: bool)
    ensures var it := Finish(w, a, x, s, running);
            it.exit.None? ==> ShownBy(it.worker.snap)
                              == (if x.overBudget then (Degraded, Some(ProcessingDeadline))
                                  else if Broke(x) then (Degraded, Some(AecReset))
                                  else ShownBy(w.snap))
  {
    BrokeIsFailed(x);
    hide AecFailed, Broke, InvalidOutput, Encoded, Reference;
  }

  /** An iteration that goes on, split into its selection, its assessment and its second half. */
  lemma GoesOnWith(w: Worker, a: Answers, x: Input) returns (a': Answers, s: Selected, judged: Worker, running: bool)
    requires Iterate(w, a, x).exit.None?
    ensures a' == (if x.microphone.reset then NextCreate(a).1 else a) && (x.microphone.reset ==> NextCreate(a).0)
    ensures s == Select(x.microphone.qpc, w.render, a') && !s.failed
    ensures judged == Assessed(w, s, if x.microphone.reset then 1 else 0)
    ensures Iterate(w, a, x) == Finish(judged, s.answers, x, s, running)
    ensures Iterate(w, a, x).record.selected == Some(s)
  {
    a' := if x.microphone.reset then NextCreate(a).1 else a;
    s := Select(x.microphone.qpc, w.render, a');
    judged := Assessed(w, s, if x.microphone.reset then 1 else 0);
    running := s.paired.Some? && judged.healthy >= HEALTHY_RECOVERY_FRAMES;
    FinishKeepsPairing(judged, s.answers, x, s, running);
    hide Select, Assessed, Searched, Finish;
  }

  lemma StepShown(w: Worker, a: Answers, x: Input)
    ensures var it := Iterate(w, a, x);
            it.exit.None? ==>
              ShownBy(it.worker.snap) == NextShown(ShownBy(w.snap), Increment(w.healthy) >= 10, it.record, x)
  {
    hide Iterate, Select, Assessed, Finish, Broke, Count, LookedAt;
    if Iterate(w, a, x).exit.None? {
      var a', s, judged, running := GoesOnWith(w, a, x);
      SelectRebuilds(x.microphone.qpc, w.render, a');
      AssessedShown(w, s, if x.microphone.reset then 1 else 0);
      FinishShown(judged, s.answers, x, s, running);
    }
  }

  lemma GoodStreak(records: seq<Record>, r: Record, healthy: nat)
    requires healthy == Min(Streak(IsGood, records), U32_MAX) && IsGood(r)
    ensures Increment(healthy) >= 10 <==> LastAll(IsGood, records + [r], 10)
  {
    StreakSnoc(IsGood, records, r);
    StreakIsLastAll(IsGood, records + [r], 10);
    hide LastAll, Streak, IsGood;
  }

  lemma ShownSnoc(records: seq<Record>, inputs: seq<Input>, r: Record, x: Input, healthy: nat)
    requires |records| == |inputs| && healthy == Min(Streak(IsGood, records), U32_MAX) && (r.aecFailed <==> Broke(x))
    ensures Shown(records + [r], inputs + [x]) == NextShown(Shown(records, inputs), Increment(healthy) >= 10, r, x)
  {
    assert (records + [r])[..|records|] == records && (inputs + [x])[..|inputs|] == inputs;
    hide LastAll, Streak, Broke, Rebuilt;
    if IsGood(r) {
      GoodStreak(records, r, healthy);
    }
  }

  /**
   * At every loop head the state and the reason shown are those of the last cause in the history: a missed
   * deadline, a canceller failure, a silent reference, a recovery or a rebuild, in this order of precedence
   * within one frame.
   */
  lemma {:induction false} ShownIsLastCause(first: Option<TimedFrame>, a: Answers, inputs: seq<Input>)
    requires RunLoop(Start(first), a, inputs).exit.None?
    ensures var r := RunLoop(Start(first), a, inputs);
            |r.records| == |inputs| && ShownBy(r.worker.snap) == Shown(r.records, inputs)
  {
    hide Iterate, NextShown, Streak, IsFailed, IsGood, IsMiss, WroteSafely;
    OneRecordPerInput(first, a, inputs);
    if inputs != [] {
      var n := |inputs| - 1;
      var x, before, step := inputs[n], Before(Start(first), a, inputs), LastStep(Start(first), a, inputs);
      GoesOn(first, a, inputs);
      ShownIsLastCause(first, a, inputs[..n]);
      RunLoopSnoc(Start(first), a, inputs);
      StepShown(before.worker, before.answers, x);
      CountersAreStreaks(first, a, inputs[..n]);
      FailedAsBroken(before.worker, before.answers, x);
      ShownSnoc(before.records, inputs[..n], step.record, x, before.worker.healthy);
      assert inputs[..n] + [x] == inputs;
    }
    hide Shown, RunLoop;
  }

  lemma GoesOn(first: Option<TimedFrame>, a: Answers, inputs: seq<Input>)
    requires inputs != [] && RunLoop(Start(first), a, inputs).exit.None?
    ensures Before(Start(first), a, inputs).exit.None?
  {
  }

  lemma FailedAsBroken(w: Worker, a: Answers, x: Input)
    requires Iterate(w, a, x).exit.None?
    ensures Iterate(w, a, x).record.aecFailed <==> Broke(x)
  {
    StepWrites(w, a, x);
    hide Iterate, Broke;
  }

  /** Records and inputs of a run: a record is good exactly when it is paired and its input did not break. */
  ghost predicate Matching(records: seq<Record>, inputs: seq<Input>) {
    |records| == |inputs| && forall n :: 0 <= n < |records| ==> (records[n].aecFailed <==> Broke(inputs[n]))
  }

  lemma {:induction false} ShownRunning(records: seq<Record>, inputs: seq<Input>)
    requires Matching(records, inputs)
    ensures Shown(records, inputs).0 == RunningAec
        <==> inputs != [] && LastAll(IsGood, records, 10) && !inputs[|inputs| - 1].overBudget
  {
    if inputs != [] {
      var n := |inputs| - 1;
      ShownRunning(records[..n], inputs[..n]);
      assert LastAll(IsGood, records[..n], 10) && IsGood(records[n]) ==> LastAll(IsGood, records, 10);
    }
    hide Broke, Rebuilt;
  }

  lemma {:induction false} RecordsMatch(first: Option<TimedFrame>, a: Answers, inputs: seq<Input>)
    requires RunLoop(Start(first), a, inputs).exit.None?
    ensures Matching(RunLoop(Start(first), a, inputs).records, inputs)
  {
    hide Iterate, Broke;
    OneRecordPerInput(first, a, inputs);
    if inputs != [] {
      var n := |inputs| - 1;
      var before := Before(Start(first), a, inputs);
      GoesOn(first, a, inputs);
      RecordsMatch(first, a, inputs[..n]);
      RunLoopSnoc(Start(first), a, inputs);
      FailedAsBroken(before.worker, before.answers, inputs[n]);
    }
    hide RunLoop;
  }

  /**
   * Recovery gate on the state itself: at a loop head the engine shows RunningAec if and only if the last ten
   * frames were all paired and processed without failure, and the last one within its deadline.
   */
  lemma RunningExactly(first: Option<TimedFrame>, a: Answers, inputs: seq<Input>)
    requires RunLoop(Start(first), a, inputs).exit.None?
    ensures var r := RunLoop(Start(first), a, inputs);
            r.worker.snap.state == RunningAec
            <==> inputs != [] && LastAll(IsGood, r.records, 10) && !inputs[|inputs| - 1].overBudget
  {
    hide RunLoop, Shown, LastAll;
    ShownIsLastCause(first, a, inputs);
    RecordsMatch(first, a, inputs);
    ShownRunning(RunLoop(Start(first), a, inputs).records, inputs);
  }

  // ---- Rebuilds ----

  function Marked(records: seq<Record>): nat {
    if records == [] then 0 else Marked(records[..|records| - 1]) + MarkedIn(records[|records| - 1])
  }

  lemma AssessedResets(w: Worker, s: Selected, resets: nat)
    ensures var (before, snap) := (w.snap, Assessed(w, s, resets).snap);
            && snap.alignmentResets == before.alignmentResets + resets + s.rebuilds
            && snap.aecRebuilds == before.aecRebuilds + resets + s.rebuilds
            && Searched(w, s, resets).snap.aecRebuilds == snap.aecRebuilds
  {
  }

  lemma FinishResets(w: Worker, a: Answers, x: Input, s: Selected, running: bool)
    ensures var it := Finish(w, a, x, s, running); var snap := it.worker.snap;
            && snap.alignmentResets == w.snap.alignmentResets
            && (it.exit.None? ==> snap.aecRebuilds == w.snap.aecRebuilds + if Broke(x) then 1 else 0)
            && w.snap.aecRebuilds <= snap.aecRebuilds
            && Created(a.creates, snap.aecRebuilds - w.snap.aecRebuilds, it.exit == Some(RebuildFailed),
                       it.answers.creates)
  {
    hide Broke, Encoded, Reference, Created, Echo, Deliver;
    EchoResets(w, a, x);
    var echoed := Echo(w, a, x);
    DeliverResets(echoed.worker, x);
    assert Deliver(echoed.worker, x).1 != Some(RebuildFailed);
  }

  lemma EchoResets(w: Worker, a: Answers, x: Input)
    ensures var e := Echo(w, a, x); var snap := e.worker.snap;
            && snap.alignmentResets == w.snap.alignmentResets
            && (e.exit.None? ==> snap.aecRebuilds == w.snap.aecRebuilds + if Broke(x) then 1 else 0)
            && w.snap.aecRebuilds <= snap.aecRebuilds
            && Created(a.creates, snap.aecRebuilds - w.snap.aecRebuilds, e.exit == Some(RebuildFailed),
                       e.answers.creates)
  {
    hide AecFailed, Broke, InvalidOutput, Created, NextCreate;
    assert AecFailed(x) <==> Broke(x) by {
      BrokeIsFailed(x);
    }
    if AecFailed(x) && Increment(w.aecFailures) < MAX_CONSECUTIVE_AEC_FAILURES {
      CreatedOne(a);
    } else {
      CreatedNone(a.creates);
    }
  }

  lemma DeliverResets(w: Worker, x: Input)
    ensures var (done, exit) := Deliver(w, x);
            && done.snap.alignmentResets == w.snap.alignmentResets && done.snap.aecRebuilds == w.snap.aecRebuilds
            && exit != Some(RebuildFailed)
  {
  }

  lemma StepResets(w: Worker, a: Answers, x: Input)
    ensures var it := Iterate(w, a, x); var (before, after) := (w.snap, it.worker.snap);
            it.exit.None? ==>
              && after.alignmentResets == before.alignmentResets + (if IsReset(x) then 1 else 0) + MarkedIn(it.record)
              && after.aecRebuilds == before.aecRebuilds + (if IsReset(x) then 1 else 0) + MarkedIn(it.record)
                                      + (if Broke(x) then 1 else 0)
  {
    hide Iterate, Select, Assessed, Finish, Broke, Count, LookedAt, Created;
    if Iterate(w, a, x).exit.None? {
      var a', s, judged, running := GoesOnWith(w, a, x);
      SelectRebuilds(x.microphone.qpc, w.render, a');
      AssessedResets(w, s, if x.microphone.reset then 1 else 0);
      FinishResets(judged, s.answers, x, s, running);
    }
  }

  lemma MarkedSnoc(records: seq<Record>, r: Record)
    ensures Marked(records + [r]) == Marked(records) + MarkedIn(r)
  {
    assert (records + [r])[..|records|] == records;
  }

  lemma CountSnoc(p: Input -> bool, inputs: seq<Input>)
    requires inputs != []
    ensures Count(p, inputs) == Count(p, inputs[..|inputs| - 1]) + if p(inputs[|inputs| - 1]) then 1 else 0
  {
  }

  /**
   * At every loop head the alignment resets are the marked microphone frames consumed and the marked render
   * frames looked at, each time one is looked at; the rebuilds are those and the canceller failures survived.
   */
  lemma {:induction false} RebuildsAreCounted(first: Option<TimedFrame>, a: Answers, inputs: seq<Input>)
    requires RunLoop(Start(first), a, inputs).exit.None?
    ensures var r := RunLoop(Start(first), a, inputs); var snap := r.worker.snap;
            && snap.alignmentResets == Count(IsReset, inputs) + Marked(r.records)
            && snap.aecRebuilds == snap.alignmentResets + Count(Broke, inputs)
            && snap.epoch == 1 + snap.alignmentResets && snap.aecResets == snap.aecRebuilds
  {
    hide Iterate, MarkedIn, Broke, IsReset, Balanced;
    Conservation(first, a, inputs);
    assert Balanced(RunLoop(Start(first), a, inputs).worker, 0, 0);
    BalancedEpoch(RunLoop(Start(first), a, inputs).worker);
    if inputs != [] {
      var n := |inputs| - 1;
      var before, step := Before(Start(first), a, inputs), LastStep(Start(first), a, inputs);
      GoesOn(first, a, inputs);
      RebuildsAreCounted(first, a, inputs[..n]);
      RunLoopSnoc(Start(first), a, inputs);
      StepResets(before.worker, before.answers, inputs[n]);
      MarkedSnoc(before.records, step.record);
      CountSnoc(IsReset, inputs);
      CountSnoc(Broke, inputs);
      hide RunLoop, Count, Marked;
    }
  }

  lemma BalancedEpoch(w: Worker)
    requires Balanced(w, 0, 0)
    ensures w.snap.epoch == 1 + w.snap.alignmentResets && w.snap.aecResets == w.snap.aecRebuilds
  {
  }

  lemma SelectionCreates(w: Worker, a: Answers, x: Input)
    requires x.microphone.reset ==> NextCreate(a).0
    ensures var resets := if x.microphone.reset then 1 else 0;
            var s := Select(x.microphone.qpc, w.render, if x.microphone.reset then NextCreate(a).1 else a);
            Created(a.creates, resets + s.rebuilds, s.failed, s.answers.creates)
  {
    hide NextCreate, Created, Select;
    var resets := if x.microphone.reset then 1 else 0;
    var a' := if x.microphone.reset then NextCreate(a).1 else a;
    var s := Select(x.microphone.qpc, w.render, a');
    if x.microphone.reset {
      CreatedOne(a);
    } else {
      CreatedNone(a.creates);
    }
    SelectRebuilds(x.microphone.qpc, w.render, a');
    CreatedThen(a.creates, resets, a'.creates, s.rebuilds, s.failed, s.answers.creates);
  }

  /** What an iteration does after its microphone frame was accepted, as far as creations go. */
  lemma SecondHalfCreates(w: Worker, a: Answers, x: Input, s: Selected, resets: nat, running: bool)
    requires Created(a.creates, resets + s.rebuilds, false, s.answers.creates)
    ensures var judged := Assessed(w, s, resets); var it := Finish(judged, s.answers, x, s, running);
            && w.snap.aecRebuilds <= it.worker.snap.aecRebuilds
            && Created(a.creates, it.worker.snap.aecRebuilds - w.snap.aecRebuilds, it.exit == Some(RebuildFailed),
                       it.answers.creates)
  {
    hide Created, Assessed, Finish;
    var judged := Assessed(w, s, resets);
    var it := Finish(judged, s.answers, x, s, running);
    AssessedResets(w, s, resets);
    FinishResets(judged, s.answers, x, s, running);
    CreatedThen(a.creates, resets + s.rebuilds, s.answers.creates,
                it.worker.snap.aecRebuilds - judged.snap.aecRebuilds, it.exit == Some(RebuildFailed),
                it.answers.creates);
  }

  lemma StepCreates(w: Worker, a: Answers, x: Input)
    ensures var it := Iterate(w, a, x);
            && w.snap.aecRebuilds <= it.worker.snap.aecRebuilds
            && Created(a.creates, it.worker.snap.aecRebuilds - w.snap.aecRebuilds, it.exit == Some(RebuildFailed),
                       it.answers.creates)
  {
    hide NextCreate, Created, Select, Assessed, Searched, Finish;
    CreatedOne(a);
    if !x.microphone.reset || NextCreate(a).0 {
      var resets := if x.microphone.reset then 1 else 0;
      var s := Select(x.microphone.qpc, w.render, if x.microphone.reset then NextCreate(a).1 else a);
      var judged := Assessed(w, s, resets);
      SelectionCreates(w, a, x);
      AssessedResets(w, s, resets);
      if !s.failed {
        SecondHalfCreates(w, a, x, s, resets, s.paired.Some? && judged.healthy >= HEALTHY_RECOVERY_FRAMES);
      }
    }
  }

  /**
   * Every rebuild uses one answer of the canceller factory, in order, and the run ends for lack of a canceller
   * if and only if one of the answers used was a failure, which then is the last.
   */
  lemma {:induction false} RebuildFailsExactly(first: Option<TimedFrame>, a: Answers, inputs: seq<Input>)
    ensures var r := RunLoop(Start(first), a, inputs);
            Created(a.creates, r.worker.snap.aecRebuilds, r.exit == Some(RebuildFailed), r.answers.creates)
  {
    hide Iterate, Created;
    if inputs == [] {
      CreatedNone(a.creates);
    } else {
      var before, step := Before(Start(first), a, inputs), LastStep(Start(first), a, inputs);
      RebuildFailsExactly(first, a, inputs[..|inputs| - 1]);
      if before.exit.None? {
        RunLoopSnoc(Start(first), a, inputs);
        StepCreates(before.worker, before.answers, inputs[|inputs| - 1]);
        CreatedThen(a.creates, before.worker.snap.aecRebuilds, before.answers.creates,
                    step.worker.snap.aecRebuilds - before.worker.snap.aecRebuilds,
                    step.exit == Some(RebuildFailed), step.answers.creates);
      }
    }
  }

  // ---- Why a run ends at the sink, and what the canceller is fed ----

  /** What one iteration feeds the canceller, writes and answers. */
  ghost predicate Delivered(r: Record, n: nat, x: Input, exit: Option<Exit>) {
    && (r.written.Some? <==> exit.None? || exit == Some(DiagnosticsFailed))
    && (r.written.Some? ==> x.writeOk && r.fed.Some?)
    && (exit == Some(SinkRejected) ==> !x.writeOk && r.fed.Some?)
    && (exit == Some(DiagnosticsFailed) <==> r.written.Some? && (n + 1) % 100 == 0 && !x.diagnosticsOk)
    && (r.fed.Some? ==>
          && r.selected.Some? && r.fed.value.1 == x.microphone.samples
          && (r.selected.value.paired.Some? ==> r.fed.value.0 == r.selected.value.paired.value.samples)
          && (r.selected.value.paired.None? ==>
                |r.fed.value.0| == FRAME_SAMPLES && forall k :: 0 <= k < FRAME_SAMPLES ==> r.fed.value.0[k] == 0.0))
  }

  lemma FinishDelivers(w: Worker, a: Answers, x: Input, s: Selected, running: bool)
    ensures var it := Finish(w, a, x, s, running);
            && Delivered(it.record, w.sequence, x, it.exit)
            && (it.exit.None? ==> it.worker.sequence == w.sequence + 1 && it.worker.snap.delta == w.snap.delta)
            && it.record.selected == Some(s)
  {
    hide AecFailed, InvalidOutput, Encoded, NextCreate;
  }

  lemma AssessedDelta(w: Worker, s: Selected, resets: nat)
    ensures Assessed(w, s, resets).sequence == w.sequence && Assessed(w, s, resets).snap.delta == s.delta
  {
  }

  lemma StepDelivers(w: Worker, a: Answers, x: Input)
    ensures var it := Iterate(w, a, x);
            && Delivered(it.record, w.sequence, x, it.exit)
            && (it.exit.None? ==> it.worker.sequence == w.sequence + 1)
            && (it.exit.None? && it.record.selected.Some? ==> it.worker.snap.delta == it.record.selected.value.delta)
  {
    hide Select, NextCreate, Finish, Assessed, Searched;
    var s := Select(x.microphone.qpc, w.render, if x.microphone.reset then NextCreate(a).1 else a);
    var judged := Assessed(w, s, if x.microphone.reset then 1 else 0);
    AssessedDelta(w, s, if x.microphone.reset then 1 else 0);
    FinishDelivers(judged, s.answers, x, s, s.paired.Some? && judged.healthy >= HEALTHY_RECOVERY_FRAMES);
  }

  /**
   * Frame by frame over a run: the canceller gets the paired render frame, or silence, and the microphone
   * frame; a frame is written unless the run ends before it; the sink's refusal and every hundredth frame's
   * diagnostics end it exactly when they fail.
   */
  lemma {:induction false} FramesAreDelivered(first: Option<TimedFrame>, a: Answers, inputs: seq<Input>, n: nat)
    requires n < |RunLoop(Start(first), a, inputs).records|
    ensures var r := RunLoop(Start(first), a, inputs);
            n < |inputs| && Delivered(r.records[n], n, inputs[n], if n == |r.records| - 1 then r.exit else None)
    decreases |inputs|
  {
    hide Iterate, Delivered, WroteSafely;
    OneRecordPerInput(first, a, inputs);
    var before := Before(Start(first), a, inputs);
    if before.exit.None? {
      RunLoopSnoc(Start(first), a, inputs);
      SinkFramesAreSafe(first, a, inputs[..|inputs| - 1]);
      StepDelivers(before.worker, before.answers, inputs[|inputs| - 1]);
      if n < |before.records| {
        FramesAreDelivered(first, a, inputs[..|inputs| - 1], n);
      }
    } else {
      FramesAreDelivered(first, a, inputs[..|inputs| - 1], n);
    }
  }

  /** The delta shown is that of the last selection. */
  lemma DeltaIsLast(first: Option<TimedFrame>, a: Answers, inputs: seq<Input>)
    requires inputs != [] && RunLoop(Start(first), a, inputs).exit.None?
    ensures var r := RunLoop(Start(first), a, inputs);
            && r.records != [] && r.records[|r.records| - 1].selected.Some?
            && r.worker.snap.delta == r.records[|r.records| - 1].selected.value.delta
  {
    hide Iterate, Delivered;
    var before := Before(Start(first), a, inputs);
    GoesOn(first, a, inputs);
    RunLoopSnoc(Start(first), a, inputs);
    ExitNone(before.worker, before.answers, inputs[|inputs| - 1]);
    StepDelivers(before.worker, before.answers, inputs[|inputs| - 1]);
    hide RunLoop;
  }

  // ---- Waiting for render ----

  /** The next selection will wait for a render frame instead of just looking for one. */
  predicate Waits(r: Render) { r.held.None? && !r.waitExhausted }

  lemma ScanKeepsAFrame(microphone: nat, r: Render, a: Answers)
    requires r.held.Some?
    ensures var s := Scan(microphone, r, a); |s.stale| + |Listed(s.paired)| + |Listed(s.render.held)| > 0
  {
    LookAt(microphone, r, a);
    hide Scan;
  }

  /** A selection that starts without a frame receives one, or is left without one and done waiting. */
  lemma SelectWaits(microphone: nat, r: Render, a: Answers)
    requires r.held.None?
    ensures var s := Select(microphone, r, a);
            |Frames(s.answers.pops)| < |Frames(a.pops)| || (s.render.held.None? && s.render.waitExhausted)
  {
    var (next, a') := NextPop(a);
    if next.None? {
      ScanNothing(microphone, Render(next, true), a');
    } else {
      ScanKeepsAFrame(microphone, Render(next, false), a');
      SelectConserves(microphone, r, a);
    }
    hide Scan, Frames;
  }

  lemma StepWaits(w: Worker, a: Answers, x: Input)
    requires w.render.held.None? && Iterate(w, a, x).exit.None?
    ensures var it := Iterate(w, a, x); var r := it.worker.render;
            |Frames(it.answers.pops)| < |Frames(a.pops)| || (r.held.None? && r.waitExhausted)
  {
    hide Iterate, Select, Frames;
    ExitNone(w, a, x);
    StepSelects(w, a, x);
    var a' := if x.microphone.reset then NextCreate(a).1 else a;
    SelectWaits(x.microphone.qpc, w.render, a');
  }

  lemma PopShrinks(a: Answers)
    ensures |Frames(NextPop(a).1.pops)| <= |Frames(a.pops)|
  {
    NextPopFrames(a);
  }

  lemma {:induction false} ScanShrinks(microphone: nat, r: Render, a: Answers)
    ensures |Frames(Scan(microphone, r, a).answers.pops)| <= |Frames(a.pops)|
    decreases |a.pops| + |Listed(r.held)|
  {
    hide Scan, Frames, SignedDelta;
    if r.held.None? {
      ScanNothing(microphone, r, a);
    } else {
      LookAt(microphone, r, a);
      var a' := if r.held.value.reset then NextCreate(a).1 else a;
      var (next, a'') := NextPop(a');
      PopShrinks(a');
      PoppedLess(a');
      ScanShrinks(microphone, r.(held := next), a'');
    }
  }

  lemma StepShrinks(w: Worker, a: Answers, x: Input)
    ensures |Frames(Iterate(w, a, x).answers.pops)| <= |Frames(a.pops)|
  {
    hide Iterate, Scan, Frames;
    StepSelects(w, a, x);
    var a' := if x.microphone.reset then NextCreate(a).1 else a;
    var (next, a'') := NextPop(a');
    PopShrinks(a');
    ScanShrinks(x.microphone.qpc, w.render, a');
    ScanShrinks(x.microphone.qpc, Render(next, next.None?), a'');
  }

  /** From a loop head that waits: a frame was received since, or the worker has none and is done waiting. */
  ghost predicate WaitedOut(start: Progress, r: Progress) {
    || |Frames(r.answers.pops)| < |Frames(start.answers.pops)|
    || (&& |Frames(r.answers.pops)| <= |Frames(start.answers.pops)|
        && r.worker.render.held.None? && r.worker.render.waitExhausted)
  }

  lemma {:induction false} WaitIsOver(first: Option<TimedFrame>, a: Answers, inputs: seq<Input>, i: nat, j: nat)
    requires i < j <= |inputs| && Until(first, a, inputs, j).exit.None?
    requires Waits(Until(first, a, inputs, i).worker.render)
    ensures WaitedOut(Until(first, a, inputs, i), Until(first, a, inputs, j))
    decreases j
  {
    hide Iterate, Frames, Waits;
    UntilBefore(first, a, inputs, j - 1);
    UntilSnoc(first, a, inputs, j - 1);
    var before := Until(first, a, inputs, j - 1);
    hide Until;
    StepShrinks(before.worker, before.answers, inputs[j - 1]);
    if i < j - 1 {
      WaitIsOver(first, a, inputs, i, j - 1);
    } else {
      WaitsIsEmpty(before.worker.render);
    }
    if before.worker.render.held.None? {
      StepWaits(before.worker, before.answers, inputs[j - 1]);
    }
  }

  lemma WaitsIsEmpty(r: Render)
    requires Waits(r)
    ensures r.held.None?
  {
  }

  lemma UntilBefore(first: Option<TimedFrame>, a: Answers, inputs: seq<Input>, k: nat)
    requires k < |inputs| && Until(first, a, inputs, k + 1).exit.None?
    ensures Until(first, a, inputs, k).exit.None?
  {
    assert inputs[..k + 1][..k] == inputs[..k];
  }

  /**
   * Missing render stalls the microphone at most once: between two loop heads at which the worker would wait
   * for a render frame it has received one.
   */
  lemma WaitsNeedFrames(first: Option<TimedFrame>, a: Answers, inputs: seq<Input>, i: nat, j: nat)
    requires i < j <= |inputs| && Until(first, a, inputs, j).exit.None?
    requires Waits(Until(first, a, inputs, i).worker.render) && Waits(Until(first, a, inputs, j).worker.render)
    ensures |Frames(Until(first, a, inputs, j).answers.pops)| < |Frames(Until(first, a, inputs, i).answers.pops)|
  {
    WaitIsOver(first, a, inputs, i, j);
    hide Until, Frames;
  }
}
