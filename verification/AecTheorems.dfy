/** What every run of the AEC processing loop keeps, over all inputs and all answers of its environment. */
module AecTheorems {
  import opened AudioTypes
  import opened TimedFraming
  import opened Pairing
  import opened AecLoop
  import Framing

  predicate IsPaired(r: Record) { r.selected.Some? && r.selected.value.paired.Some? }

  predicate IsSilent(r: Record) { r.selected.Some? && !r.selected.value.failed && r.selected.value.paired.None? }

  /** A miss: the frame the worker holds is too far in the future. */
  predicate IsMiss(r: Record) { IsSilent(r) && r.selected.value.delta.Some? }

  predicate IsGood(r: Record) { IsPaired(r) && !r.aecFailed }

  predicate IsFailed(r: Record) { r.aecFailed }

  predicate IsWritten(r: Record) { r.written.Some? }

  function Before(w: Worker, a: Answers, inputs: seq<Input>): Progress
    requires inputs != []
  {
    RunLoop(w, a, inputs[..|inputs| - 1])
  }

  function LastStep(w: Worker, a: Answers, inputs: seq<Input>): Iterated
    requires inputs != []
  {
    var before := Before(w, a, inputs);
    Iterate(before.worker, before.answers, inputs[|inputs| - 1])
  }

  lemma RunLoopSnoc(w: Worker, a: Answers, inputs: seq<Input>)
    requires inputs != [] && RunLoop(w, a, inputs[..|inputs| - 1]).exit.None?
    ensures var before, step := RunLoop(w, a, inputs[..|inputs| - 1]), LastStep(w, a, inputs);
            && step == Iterate(before.worker, before.answers, inputs[|inputs| - 1])
            && RunLoop(w, a, inputs) == Progress(step.worker, step.answers, before.records + [step.record], step.exit)
  {
    hide Iterate;
  }

  // ---- Counters are functions of the history ----

  function Streak(p: Record -> bool, s: seq<Record>): nat {
    if s == [] || !p(s[|s| - 1]) then 0 else 1 + Streak(p, s[..|s| - 1])
  }

  ghost predicate LastAll(p: Record -> bool, s: seq<Record>, n: nat) {
    n <= |s| && forall i :: |s| - n <= i < |s| ==> p(s[i])
  }

  lemma {:induction false} StreakIsLastAll(p: Record -> bool, s: seq<Record>, n: nat)
    ensures Streak(p, s) >= n <==> LastAll(p, s, n)
  {
    if n > 0 && s != [] && p(s[|s| - 1]) {
      StreakIsLastAll(p, s[..|s| - 1], n - 1);
    }
  }

  lemma FinishCounters(w: Worker, a: Answers, x: Input, s: Selected, running: bool)
    ensures var it := Finish(w, a, x, s, running);
            && it.record.selected == Some(s) && it.record.running == running && it.exit != Some(SkewExceeded)
            && (it.exit == Some(AecExhausted) <==>
                  it.record.aecFailed && Increment(w.aecFailures) >= MAX_CONSECUTIVE_AEC_FAILURES)
            && (it.exit.None? ==>
                  && it.worker.healthy == (if it.record.aecFailed then 0 else w.healthy)
                  && it.worker.skewMisses == w.skewMisses
                  && it.worker.aecFailures == (if it.record.aecFailed then Increment(w.aecFailures) else 0))
  {
  }

  /** What one iteration does to the counters, in terms of its record alone. */
  lemma StepCounters(w: Worker, a: Answers, x: Input)
    ensures var it := Iterate(w, a, x);
            && it.record.running == (IsPaired(it.record) && Increment(w.healthy) >= HEALTHY_RECOVERY_FRAMES)
            && (it.exit == Some(SkewExceeded) <==>
                  IsMiss(it.record) && Increment(w.skewMisses) >= MAX_CONSECUTIVE_RENDER_MISSES)
            && (it.exit == Some(AecExhausted) <==>
                  it.record.aecFailed && Increment(w.aecFailures) >= MAX_CONSECUTIVE_AEC_FAILURES)
            && (it.exit.None? ==>
                  && it.worker.healthy == (if IsGood(it.record) then Increment(w.healthy) else 0)
                  && it.worker.skewMisses == (if IsMiss(it.record) then Increment(w.skewMisses) else 0)
                  && it.worker.aecFailures == (if it.record.aecFailed then Increment(w.aecFailures) else 0))
  {
    var (_, a') := if x.microphone.reset then NextCreate(a) else (true, a);
    SelectIsSound(x.microphone.qpc, w.render, a');
    FailedSelection(x.microphone.qpc, w.render, a');
    hide Finish, Select, Scanned;
    forall w', a'', s, running
      ensures var it := Finish(w', a'', x, s, running);
              && it.record.selected == Some(s) && it.record.running == running && it.exit != Some(SkewExceeded)
              && (it.exit == Some(AecExhausted) <==>
                    it.record.aecFailed && Increment(w'.aecFailures) >= MAX_CONSECUTIVE_AEC_FAILURES)
              && (it.exit.None? ==>
                    && it.worker.healthy == (if it.record.aecFailed then 0 else w'.healthy)
                    && it.worker.skewMisses == w'.skewMisses
                    && it.worker.aecFailures == (if it.record.aecFailed then Increment(w'.aecFailures) else 0))
    {
      FinishCounters(w', a'', x, s, running);
    }
  }

  lemma {:induction false} FailedScan(microphone: nat, r: Render, a: Answers)
    ensures Scan(microphone, r, a).failed ==> Scan(microphone, r, a).paired.None?
    decreases |a.pops| + |Listed(r.held)|
  {
    if r.held.Some? {
      var candidate := r.held.value;
      var (created, a') := if candidate.reset then NextCreate(a) else (true, a);
      if created && SignedDelta(candidate.qpc, microphone) < -ALIGNMENT_TOLERANCE_100NS {
        var (next, a'') := NextPop(a');
        FailedScan(microphone, r.(held := next), a'');
      }
    }
  }

  lemma FailedSelection(microphone: nat, r: Render, a: Answers)
    ensures Select(microphone, r, a).failed ==> Select(microphone, r, a).paired.None?
  {
    var (next, a') := NextPop(a);
    FailedScan(microphone, r, a);
    FailedScan(microphone, Render(next, next.None?), a');
  }

  lemma StreakSnoc(p: Record -> bool, s: seq<Record>, x: Record)
    ensures Streak(p, s + [x]) == if p(x) then 1 + Streak(p, s) else 0
  {
    assert (s + [x])[..|s|] == s;
  }

  ghost predicate Counted(w: Worker, records: seq<Record>) {
    && w.healthy == Min(Streak(IsGood, records), U32_MAX)
    && w.skewMisses == Streak(IsMiss, records) < MAX_CONSECUTIVE_RENDER_MISSES
    && w.aecFailures == Streak(IsFailed, records) < MAX_CONSECUTIVE_AEC_FAILURES
  }

  lemma CountedStep(w: Worker, after: Worker, records: seq<Record>, r: Record)
    requires Counted(w, records)
    requires after.healthy == (if IsGood(r) then Increment(w.healthy) else 0)
    requires after.skewMisses == (if IsMiss(r) then Increment(w.skewMisses) else 0) < MAX_CONSECUTIVE_RENDER_MISSES
    requires after.aecFailures == (if IsFailed(r) then Increment(w.aecFailures) else 0) < MAX_CONSECUTIVE_AEC_FAILURES
    ensures Counted(after, records + [r])
  {
    StreakSnoc(IsGood, records, r);
    StreakSnoc(IsMiss, records, r);
    StreakSnoc(IsFailed, records, r);
  }

  lemma {:induction false} CountersAreStreaks(first: Option<TimedFrame>, a: Answers, inputs: seq<Input>)
    ensures var r := RunLoop(Start(first), a, inputs);
            r.exit.None? ==> Counted(r.worker, r.records)
  {
    if inputs != [] {
      CountersAreStreaks(first, a, inputs[..|inputs| - 1]);
      var before := Before(Start(first), a, inputs);
      if before.exit.None? {
        var step := LastStep(Start(first), a, inputs);
        StepCounters(before.worker, before.answers, inputs[|inputs| - 1]);
        if step.exit.None? {
          CountedStep(before.worker, step.worker, before.records, step.record);
        }
      }
    }
  }

  /**
   * Recovery gate: the worker reports RunningAec exactly when this and the nine frames before it were
   * paired and the nine before it were also processed without an AEC failure.
   */
  lemma {:induction false} RunningGate(first: Option<TimedFrame>, a: Answers, inputs: seq<Input>)
    ensures var records := RunLoop(Start(first), a, inputs).records;
            forall n :: 0 <= n < |records| ==>
              (records[n].running <==>
                 IsPaired(records[n]) && LastAll(IsGood, records[..n], 9))
  {
    if inputs != [] {
      RunningGate(first, a, inputs[..|inputs| - 1]);
      var before := Before(Start(first), a, inputs);
      if before.exit.None? {
        CountersAreStreaks(first, a, inputs[..|inputs| - 1]);
        StepCounters(before.worker, before.answers, inputs[|inputs| - 1]);
        StreakIsLastAll(IsGood, before.records, HEALTHY_RECOVERY_FRAMES - 1);
        var records := RunLoop(Start(first), a, inputs).records;
        assert forall n :: 0 <= n <= |before.records| ==> records[..n] == before.records[..n];
        assert before.records[..|before.records|] == before.records;
      }
    }
  }

  /** The run ends in a synchronisation failure exactly when its last 50 selections all were misses. */
  lemma {:induction false} SkewFailureExactly(first: Option<TimedFrame>, a: Answers, inputs: seq<Input>)
    ensures var r := RunLoop(Start(first), a, inputs);
            r.exit == Some(SkewExceeded) <==> LastAll(IsMiss, r.records, 50)
  {
    var r := RunLoop(Start(first), a, inputs);
    StreakIsLastAll(IsMiss, r.records, MAX_CONSECUTIVE_RENDER_MISSES);
    CountersAreStreaks(first, a, inputs);
    if inputs != [] {
      SkewFailureExactly(first, a, inputs[..|inputs| - 1]);
      var before := Before(Start(first), a, inputs);
      if before.exit.None? {
        CountersAreStreaks(first, a, inputs[..|inputs| - 1]);
        StepCounters(before.worker, before.answers, inputs[|inputs| - 1]);
        assert r.records[..|r.records| - 1] == before.records;
      }
    }
  }

  /** The run gives the canceller up exactly when its last three frames all failed. */
  lemma {:induction false} ExhaustionExactly(first: Option<TimedFrame>, a: Answers, inputs: seq<Input>)
    ensures var r := RunLoop(Start(first), a, inputs);
            r.exit == Some(AecExhausted) <==> LastAll(IsFailed, r.records, 3)
  {
    var r := RunLoop(Start(first), a, inputs);
    StreakIsLastAll(IsFailed, r.records, MAX_CONSECUTIVE_AEC_FAILURES);
    CountersAreStreaks(first, a, inputs);
    if inputs != [] {
      ExhaustionExactly(first, a, inputs[..|inputs| - 1]);
      var before := Before(Start(first), a, inputs);
      if before.exit.None? {
        CountersAreStreaks(first, a, inputs[..|inputs| - 1]);
        StepCounters(before.worker, before.answers, inputs[|inputs| - 1]);
        assert r.records[..|r.records| - 1] == before.records;
      }
    }
  }

  // ---- What reaches the sink ----

  /** The canceller failed, or put out something that is not a number. */
  predicate Broke(x: Input) { !x.processOk || exists k :: 0 <= k < FRAME_SAMPLES && x.output[k].NonFinite? }

  lemma BrokeIsFailed(x: Input)
    ensures AecFailed(x) <==> Broke(x)
    ensures InvalidOutput(x.output) <==> exists k :: 0 <= k < FRAME_SAMPLES && x.output[k].NonFinite?
  {
  }

  /** Record `r` of iteration `n` wrote frame number `n`, silent after a failure and processed otherwise. */
  ghost predicate WroteSafely(r: Record, n: nat, x: Input)
    requires r.written.Some?
  {
    && |r.written.value.1| == FRAME_SAMPLES
    && r.written.value.0 == n
    && (r.aecFailed <==> Broke(x))
    && (forall k :: 0 <= k < FRAME_SAMPLES ==>
          if Broke(x) then r.written.value.1[k] == 0
          else x.output[k].Finite? && r.written.value.1[k] == Framing.Pcm16(x.output[k]).0)
  }

  lemma SilenceIsZero()
    ensures forall k :: 0 <= k < FRAME_SAMPLES ==> Encoded(SILENCE)[k] == 0
  {
  }

  lemma StepWrites(w: Worker, a: Answers, x: Input)
    ensures var it := Iterate(w, a, x);
            && (it.exit.None? ==> it.record.written.Some? && it.worker.sequence == w.sequence + 1)
            && (it.record.written.Some? ==> WroteSafely(it.record, w.sequence, x))
  {
    BrokeIsFailed(x);
    SilenceIsZero();
    hide Select, AecFailed, InvalidOutput, Reference;
  }

  /**
   * The sink gets frames 0, 1, 2, ... without a gap; only the last iteration may fail to write. A frame
   * whose processing failed is all zero, and no frame is ever the raw microphone frame.
   */
  lemma {:induction false} SinkFramesAreSafe(first: Option<TimedFrame>, a: Answers, inputs: seq<Input>)
    ensures var r := RunLoop(Start(first), a, inputs);
            && |r.records| <= |inputs|
            && (r.exit.None? ==> |r.records| == |inputs| == r.worker.sequence)
            && (forall n :: 0 <= n < |r.records| ==>
                  && (n < |r.records| - 1 || r.exit.None? ==> r.records[n].written.Some?)
                  && (r.records[n].written.Some? ==> WroteSafely(r.records[n], n, inputs[n])))
  {
    if inputs != [] {
      SinkFramesAreSafe(first, a, inputs[..|inputs| - 1]);
      var before := Before(Start(first), a, inputs);
      if before.exit.None? {
        StepWrites(before.worker, before.answers, inputs[|inputs| - 1]);
      }
    }
  }

  ghost predicate ThreeFailures(records: seq<Record>, n: int) {
    2 <= n < |records| && records[n - 2].aecFailed && records[n - 1].aecFailed && records[n].aecFailed
  }

  ghost predicate FailuresEndRun(r: Progress) {
    forall n {:trigger ThreeFailures(r.records, n)} :: ThreeFailures(r.records, n) ==>
      n == |r.records| - 1 && r.exit == Some(AecExhausted) && r.records[n].written.None?
  }

  /** At most two consecutive frames are silenced: a third failure in a row ends the run unwritten. */
  lemma {:induction false} AtMostTwoSilenced(first: Option<TimedFrame>, a: Answers, inputs: seq<Input>)
    ensures FailuresEndRun(RunLoop(Start(first), a, inputs))
  {
    ExhaustionExactly(first, a, inputs);
    if inputs != [] {
      AtMostTwoSilenced(first, a, inputs[..|inputs| - 1]);
      var before := Before(Start(first), a, inputs);
      assert FailuresEndRun(before);
      if before.exit.None? {
        ExhaustedUnwritten(before.worker, before.answers, inputs[|inputs| - 1]);
        NewFailuresAreLast(before.records, LastStep(Start(first), a, inputs).record);
      }
    }
  }

  lemma NewFailuresAreLast(records: seq<Record>, r: Record)
    requires forall n :: !ThreeFailures(records, n)
    ensures forall n :: ThreeFailures(records + [r], n) ==> n == |records| && LastAll(IsFailed, records + [r], 3)
  {
    forall n | ThreeFailures(records + [r], n) ensures n == |records| && LastAll(IsFailed, records + [r], 3) {
      assert ThreeFailures(records, n) || |records| <= n;
    }
  }

  lemma ExhaustedUnwritten(w: Worker, a: Answers, x: Input)
    ensures Iterate(w, a, x).exit == Some(AecExhausted) ==> Iterate(w, a, x).record.written.None?
  {
  }

  // ---- Conservation ----

  /** The identities of a worker at its loop head, off by the frame in flight when the loop was left. */
  ghost predicate Balanced(w: Worker, unwritten: nat, rejected: nat) {
    var s := w.snap;
    && s.accepted == w.sequence
    && s.paired + s.silent == s.accepted + unwritten
    && s.processed + s.aecRebuilds == s.accepted + s.alignmentResets + rejected
    && s.aecResets == s.aecRebuilds
    && s.epoch == 1 + s.alignmentResets
  }

  function Unwritten(r: Record, exit: Option<Exit>): nat {
    if exit.Some? && (IsPaired(r) || IsSilent(r)) && r.written.None? then 1 else 0
  }

  function Rejected(exit: Option<Exit>): nat { if exit == Some(SinkRejected) then 1 else 0 }

  lemma SearchedBalance(w: Worker, s: Selected, resets: nat)
    requires Balanced(w, 0, 0)
    ensures Balanced(Searched(w, s, resets), 0, 0) && Balanced(Assessed(w, s, resets), 1, 0)
  {
  }

  lemma FinishBalance(w: Worker, a: Answers, x: Input, s: Selected, running: bool)
    requires Balanced(w, 1, 0) && !s.failed
    ensures var it := Finish(w, a, x, s, running);
            Balanced(it.worker, Unwritten(it.record, it.exit), Rejected(it.exit))
  {
  }

  lemma StepBalance(w: Worker, a: Answers, x: Input)
    requires Balanced(w, 0, 0)
    ensures var it := Iterate(w, a, x);
            Balanced(it.worker, Unwritten(it.record, it.exit), Rejected(it.exit))
  {
    var (_, a') := if x.microphone.reset then NextCreate(a) else (true, a);
    var resets := if x.microphone.reset then 1 else 0;
    FailedSelection(x.microphone.qpc, w.render, a');
    var s := Select(x.microphone.qpc, w.render, a');
    SearchedBalance(w, s, resets);
    hide Balanced, Searched, Assessed, Finish;
    if !s.failed {
      var judged := Assessed(w, s, resets);
      FinishBalance(judged, s.answers, x, s, s.paired.Some? && judged.healthy >= HEALTHY_RECOVERY_FRAMES);
    }
  }

  /**
   * Conservation over every outcome of the canceller, its factory, the sink and the render queue:
   * accepted = paired + silent = processed + (rebuilds - alignment resets) = sequence at every loop
   * head, and at an exit only the one frame in flight can be missing from `accepted`.
   */
  lemma {:induction false} Conservation(first: Option<TimedFrame>, a: Answers, inputs: seq<Input>)
    ensures var r := RunLoop(Start(first), a, inputs);
            if r.exit.None? then Balanced(r.worker, 0, 0)
            else r.records != [] && Balanced(r.worker, Unwritten(r.records[|r.records| - 1], r.exit), Rejected(r.exit))
  {
    if inputs != [] {
      Conservation(first, a, inputs[..|inputs| - 1]);
      var before := Before(Start(first), a, inputs);
      if before.exit.None? {
        StepBalance(before.worker, before.answers, inputs[|inputs| - 1]);
      }
    }
  }

  ghost predicate Tallied(s: Snapshot, records: seq<Record>) {
    && s.paired == Count(IsPaired, records)
    && s.silent == Count(IsSilent, records)
    && s.stale + s.paired == |Disposed(records)|
    && s.accepted == Count(IsWritten, records)
  }

  /** The second half of an iteration leaves pairing alone and counts a frame exactly when it is written. */
  lemma FinishKeepsPairing(w: Worker, a: Answers, x: Input, s: Selected, running: bool)
    ensures var it := Finish(w, a, x, s, running); var snap := it.worker.snap;
            && it.record.selected == Some(s)
            && it.worker.render == w.render && it.answers.pops == a.pops
            && snap.paired == w.snap.paired && snap.silent == w.snap.silent && snap.stale == w.snap.stale
            && snap.accepted == w.snap.accepted + (if IsWritten(it.record) then 1 else 0)
  {
  }

  /** What the search, the count and the judgement do to the totals. */
  lemma SearchedTotals(w: Worker, s: Selected, resets: nat)
    ensures var snap := Searched(w, s, resets).snap;
            && Searched(w, s, resets).render == s.render
            && snap.paired == w.snap.paired && snap.silent == w.snap.silent && snap.stale == w.snap.stale + |s.stale|
            && snap.accepted == w.snap.accepted && snap.maximumSkew == w.snap.maximumSkew
            && SameOutcomes(w.snap, snap)
  {
  }

  ghost predicate SameOutcomes(before: Snapshot, after: Snapshot) {
    && after.invalidOutputs == before.invalidOutputs && after.processed == before.processed
    && after.deadlineMisses == before.deadlineMisses && after.sinkFailures == before.sinkFailures
  }

  lemma AssessedTotals(w: Worker, s: Selected, resets: nat)
    ensures var before, snap := Searched(w, s, resets).snap, Assessed(w, s, resets).snap;
            && Assessed(w, s, resets).render == s.render
            && snap.paired == before.paired + |Listed(s.paired)|
            && snap.silent == before.silent + 1 - |Listed(s.paired)|
            && snap.stale == before.stale && snap.accepted == before.accepted
            && snap.maximumSkew
               == (if s.delta.None? then before.maximumSkew
                   else Max(before.maximumSkew, Max(s.delta.value, -s.delta.value)))
            && SameOutcomes(before, snap)
  {
    SearchedTotals(w, s, resets);
    hide Searched;
  }

  /** The selection an iteration makes, seen through its record. */
  lemma StepSelects(w: Worker, a: Answers, x: Input)
    ensures var it := Iterate(w, a, x); var snap := it.worker.snap;
            match it.record.selected
            case None =>
              it.worker.render == w.render && it.answers.pops == a.pops && snap == w.snap && it.record.written.None?
            case Some(s) =>
              && s == Select(x.microphone.qpc, w.render, if x.microphone.reset then NextCreate(a).1 else a)
              && it.worker.render == s.render && it.answers.pops == s.answers.pops
              && snap.paired == w.snap.paired + (if !s.failed && s.paired.Some? then 1 else 0)
              && snap.silent == w.snap.silent + (if !s.failed && s.paired.None? then 1 else 0)
              && snap.stale == w.snap.stale + |s.stale|
              && snap.accepted == w.snap.accepted + (if IsWritten(it.record) then 1 else 0)
  {
    hide Select, Searched, Assessed, Finish, SameOutcomes;
    var a' := if x.microphone.reset then NextCreate(a).1 else a;
    var s := Select(x.microphone.qpc, w.render, a');
    var resets := if x.microphone.reset then 1 else 0;
    var judged := Assessed(w, s, resets);
    SearchedTotals(w, s, resets);
    AssessedTotals(w, s, resets);
    FinishKeepsPairing(judged, s.answers, x, s, s.paired.Some? && judged.healthy >= HEALTHY_RECOVERY_FRAMES);
  }

  lemma StepTally(w: Worker, a: Answers, x: Input)
    ensures var it := Iterate(w, a, x); var s := it.worker.snap;
            && s.paired == w.snap.paired + (if IsPaired(it.record) then 1 else 0)
            && s.silent == w.snap.silent + (if IsSilent(it.record) then 1 else 0)
            && s.accepted == w.snap.accepted + (if IsWritten(it.record) then 1 else 0)
            && s.stale + s.paired == w.snap.stale + w.snap.paired + |DisposedBy(it.record)|
  {
    StepSelects(w, a, x);
    FailedSelection(x.microphone.qpc, w.render, if x.microphone.reset then NextCreate(a).1 else a);
  }

  /** The snapshot totals count what happened. */
  lemma {:induction false} TotalsCountHistory(first: Option<TimedFrame>, a: Answers, inputs: seq<Input>)
    ensures var r := RunLoop(Start(first), a, inputs); Tallied(r.worker.snap, r.records)
  {
    if inputs != [] {
      TotalsCountHistory(first, a, inputs[..|inputs| - 1]);
      var before := Before(Start(first), a, inputs);
      if before.exit.None? {
        RunLoopSnoc(Start(first), a, inputs);
        var step := LastStep(Start(first), a, inputs);
        StepTally(before.worker, before.answers, inputs[|inputs| - 1]);
        TalliedSnoc(before.worker.snap, step.worker.snap, before.records, step.record);
      }
    }
    hide Tallied, Iterate;
  }

  lemma TalliedSnoc(before: Snapshot, after: Snapshot, records: seq<Record>, r: Record)
    requires Tallied(before, records)
    requires after.paired == before.paired + (if IsPaired(r) then 1 else 0)
    requires after.silent == before.silent + (if IsSilent(r) then 1 else 0)
    requires after.accepted == before.accepted + (if IsWritten(r) then 1 else 0)
    requires after.stale + after.paired == before.stale + before.paired + |DisposedBy(r)|
    ensures Tallied(after, records + [r])
  {
    TallySnoc(records, r);
  }

  lemma TallySnoc(records: seq<Record>, r: Record)
    ensures forall p: Record -> bool :: Count(p, records + [r]) == Count(p, records) + if p(r) then 1 else 0
    ensures Disposed(records + [r]) == Disposed(records) + DisposedBy(r)
  {
    assert (records + [r])[..|records|] == records;
  }

  predicate IsLate(x: Input) { x.overBudget }

  predicate IsInvalid(x: Input) { exists k :: 0 <= k < FRAME_SAMPLES && x.output[k].NonFinite? }

  predicate IsProcessed(x: Input) { !Broke(x) }

  /** The totals of the canceller, the clock and the sink, at a loop head or at the exit that a sink error is. */
  ghost predicate OutcomesCounted(snap: Snapshot, inputs: seq<Input>, exit: Option<Exit>) {
    && snap.invalidOutputs == Count(IsInvalid, inputs)
    && snap.processed == Count(IsProcessed, inputs)
    && snap.deadlineMisses == Count(IsLate, inputs)
    && snap.sinkFailures == Rejected(exit)
  }

  ghost predicate Delivered(exit: Option<Exit>) {
    exit.None? || exit == Some(SinkRejected) || exit == Some(DiagnosticsFailed)
  }

  /** One iteration over `x` counted what it should. */
  ghost predicate CountsOutcome(before: Snapshot, after: Snapshot, x: Input, exit: Option<Exit>) {
    && (Delivered(exit) ==>
          && after.invalidOutputs == before.invalidOutputs + (if IsInvalid(x) then 1 else 0)
          && after.processed == before.processed + (if IsProcessed(x) then 1 else 0)
          && after.deadlineMisses == before.deadlineMisses + (if IsLate(x) then 1 else 0))
    && after.sinkFailures == before.sinkFailures + Rejected(exit)
  }

  lemma FinishOutcomes(w: Worker, a: Answers, x: Input, s: Selected, running: bool)
    ensures var it := Finish(w, a, x, s, running);
            && CountsOutcome(w.snap, it.worker.snap, x, it.exit)
            && it.worker.snap.maximumSkew == w.snap.maximumSkew && it.record.selected == Some(s)
  {
    BrokeIsFailed(x);
    assert InvalidOutput(x.output) <==> IsInvalid(x);
    hide InvalidOutput, AecFailed, Broke, IsInvalid, Encoded, Reference;
  }

  lemma OutcomesThrough(a: Snapshot, b: Snapshot, c: Snapshot, d: Snapshot, x: Input, exit: Option<Exit>)
    requires SameOutcomes(a, b) && SameOutcomes(b, c) && CountsOutcome(c, d, x, exit)
    ensures CountsOutcome(a, d, x, exit)
  {
  }

  lemma NothingDelivered(a: Snapshot, b: Snapshot, c: Snapshot, x: Input, exit: Option<Exit>)
    requires SameOutcomes(a, b) && SameOutcomes(b, c) && !Delivered(exit)
    ensures CountsOutcome(a, b, x, exit) && CountsOutcome(a, c, x, exit) && CountsOutcome(a, a, x, exit)
  {
  }

  lemma StepOutcomes(w: Worker, a: Answers, x: Input)
    ensures var it := Iterate(w, a, x);
            && CountsOutcome(w.snap, it.worker.snap, x, it.exit)
            && it.worker.snap.maximumSkew == Max(w.snap.maximumSkew, Skew(it.record))
  {
    var a' := if x.microphone.reset then NextCreate(a).1 else a;
    var s := Select(x.microphone.qpc, w.render, a');
    var resets := if x.microphone.reset then 1 else 0;
    var searched, judged := Searched(w, s, resets), Assessed(w, s, resets);
    var running := s.paired.Some? && judged.healthy >= HEALTHY_RECOVERY_FRAMES;
    var finished := Finish(judged, s.answers, x, s, running);
    SearchedTotals(w, s, resets);
    AssessedTotals(w, s, resets);
    hide Select, Searched, Assessed, Finish, SameOutcomes, CountsOutcome, Listed;
    FinishOutcomes(judged, s.answers, x, s, running);
    OutcomesThrough(w.snap, searched.snap, judged.snap, finished.worker.snap, x, finished.exit);
    NothingDelivered(w.snap, searched.snap, judged.snap, x, Some(RebuildFailed));
    NothingDelivered(w.snap, searched.snap, judged.snap, x, Some(SkewExceeded));
  }

  lemma OutcomesSnoc(before: Snapshot, after: Snapshot, inputs: seq<Input>, exit: Option<Exit>)
    requires inputs != [] && OutcomesCounted(before, inputs[..|inputs| - 1], None)
    requires CountsOutcome(before, after, inputs[|inputs| - 1], exit) && Delivered(exit)
    ensures OutcomesCounted(after, inputs, exit)
  {
  }

  lemma OneRecordPerInput(first: Option<TimedFrame>, a: Answers, inputs: seq<Input>)
    ensures var r := RunLoop(Start(first), a, inputs);
            |r.records| <= |inputs| && (r.exit.None? ==> |r.records| == |inputs|)
  {
    SinkFramesAreSafe(first, a, inputs);
  }

  ghost predicate OutcomesExact(r: Progress, inputs: seq<Input>) {
    && |r.records| <= |inputs|
    && (Delivered(r.exit) ==> OutcomesCounted(r.worker.snap, inputs[..|r.records|], r.exit))
  }

  lemma OutcomesExtend(before: Progress, after: Progress, inputs: seq<Input>)
    requires inputs != [] && OutcomesExact(before, inputs[..|inputs| - 1]) && before.exit.None?
    requires |before.records| == |inputs| - 1 && |after.records| == |inputs|
    requires CountsOutcome(before.worker.snap, after.worker.snap, inputs[|inputs| - 1], after.exit)
    ensures OutcomesExact(after, inputs)
  {
    var n := |inputs| - 1;
    hide OutcomesCounted, CountsOutcome;
    assert inputs[..n][..n] == inputs[..n] && inputs[..n + 1] == inputs;
    if Delivered(after.exit) {
      OutcomesSnoc(before.worker.snap, after.worker.snap, inputs, after.exit);
    }
  }

  lemma OutcomesStay(r: Progress, inputs: seq<Input>)
    requires inputs != [] && OutcomesExact(r, inputs[..|inputs| - 1])
    ensures OutcomesExact(r, inputs)
  {
    assert inputs[..|inputs| - 1][..|r.records|] == inputs[..|r.records|];
    hide OutcomesCounted;
  }

  /** The snapshot counts the invalid outputs, processed frames, missed deadlines and sink errors of the inputs. */
  lemma {:induction false} OutcomesAreCounted(first: Option<TimedFrame>, a: Answers, inputs: seq<Input>)
    ensures OutcomesExact(RunLoop(Start(first), a, inputs), inputs)
  {
    if inputs != [] {
      var before := Before(Start(first), a, inputs);
      OutcomesAreCounted(first, a, inputs[..|inputs| - 1]);
      OneRecordPerInput(first, a, inputs[..|inputs| - 1]);
      hide OutcomesExact, Start, Iterate;
      if before.exit.None? {
        RunLoopSnoc(Start(first), a, inputs);
        StepOutcomes(before.worker, before.answers, inputs[|inputs| - 1]);
        OutcomesExtend(before, RunLoop(Start(first), a, inputs), inputs);
      } else {
        OutcomesStay(before, inputs);
      }
    }
    hide Iterate;
  }

  /** `skew` bounds every delta of the run and, unless it is zero, is one of them. */
  ghost predicate LargestSkew(skew: nat, records: seq<Record>) {
    && (forall n :: 0 <= n < |records| ==> Skew(records[n]) <= skew)
    && (skew == 0 || exists n :: 0 <= n < |records| && Skew(records[n]) == skew)
  }

  function Skew(r: Record): nat {
    if r.selected.Some? && !r.selected.value.failed && r.selected.value.delta.Some?
    then Max(r.selected.value.delta.value, -r.selected.value.delta.value) else 0
  }

  lemma LargestSkewSnoc(skew: nat, records: seq<Record>, r: Record)
    requires LargestSkew(skew, records)
    ensures LargestSkew(Max(skew, Skew(r)), records + [r])
  {
    hide Skew;
    if Skew(r) >= skew {
      assert (records + [r])[|records|] == r;
    } else {
      var n :| 0 <= n < |records| && Skew(records[n]) == skew;
      assert (records + [r])[n] == records[n];
    }
  }

  /** The reported skew is exactly the largest timestamp distance that any selection saw. */
  lemma {:induction false} SkewIsLargest(first: Option<TimedFrame>, a: Answers, inputs: seq<Input>)
    ensures var r := RunLoop(Start(first), a, inputs); LargestSkew(r.worker.snap.maximumSkew, r.records)
  {
    if inputs != [] {
      var before := Before(Start(first), a, inputs);
      SkewIsLargest(first, a, inputs[..|inputs| - 1]);
      if before.exit.None? {
        RunLoopSnoc(Start(first), a, inputs);
        var step := LastStep(Start(first), a, inputs);
        StepOutcomes(before.worker, before.answers, inputs[|inputs| - 1]);
        LargestSkewSnoc(before.worker.snap.maximumSkew, before.records, step.record);
      }
    }
    hide LargestSkew, Iterate, Skew;
  }

  // ---- Render frames ----

  function DisposedBy(r: Record): seq<TimedFrame> {
    if r.selected.Some? then r.selected.value.stale + Listed(r.selected.value.paired) else []
  }

  /** The render frames the iterations were done with, in the order they left the queue. */
  function Disposed(records: seq<Record>): seq<TimedFrame> {
    if records == [] then [] else Disposed(records[..|records| - 1]) + DisposedBy(records[|records| - 1])
  }

  lemma StepRender(w: Worker, a: Answers, x: Input)
    ensures var it := Iterate(w, a, x);
            Remaining(w.render, a) == DisposedBy(it.record) + Remaining(it.worker.render, it.answers)
  {
    var a' := if x.microphone.reset then NextCreate(a).1 else a;
    StepSelects(w, a, x);
    SelectConserves(x.microphone.qpc, w.render, a');
  }

  ghost predicate Conserves(whole: seq<TimedFrame>, r: Progress) {
    whole == Disposed(r.records) + Remaining(r.worker.render, r.answers)
  }

  lemma ConservesStep(whole: seq<TimedFrame>, before: Progress, step: Iterated)
    requires Conserves(whole, before)
    requires Remaining(before.worker.render, before.answers)
          == DisposedBy(step.record) + Remaining(step.worker.render, step.answers)
    ensures Conserves(whole, Progress(step.worker, step.answers, before.records + [step.record], step.exit))
  {
    TallySnoc(before.records, step.record);
    hide Remaining, Disposed, DisposedBy;
  }

  /**
   * No render frame is replayed, reordered or lost: those the queue will ever give are, in queue order,
   * the stale and the paired ones, the one still held and those still to come.
   */
  lemma {:induction false} RenderConservation(first: Option<TimedFrame>, a: Answers, inputs: seq<Input>)
    ensures Conserves(Listed(first) + Frames(a.pops), RunLoop(Start(first), a, inputs))
  {
    if inputs != [] {
      RenderConservation(first, a, inputs[..|inputs| - 1]);
      var before := Before(Start(first), a, inputs);
      if before.exit.None? {
        StepRender(before.worker, before.answers, inputs[|inputs| - 1]);
        ConservesStep(Listed(first) + Frames(a.pops), before, LastStep(Start(first), a, inputs));
      }
    }
  }

  /** In numbers: popped = paired + stale + held, where what was popped is what is no longer to come. */
  lemma PoppedIsAccountedFor(first: Option<TimedFrame>, a: Answers, inputs: seq<Input>)
    ensures var r := RunLoop(Start(first), a, inputs); var snap := r.worker.snap;
            |Listed(first)| + |Frames(a.pops)| - |Frames(r.answers.pops)|
            == snap.paired + snap.stale + |Listed(r.worker.render.held)|
  {
    TotalsCountHistory(first, a, inputs);
    RenderConservation(first, a, inputs);
    hide RunLoop, Disposed, Frames;
  }

  /** The worker is left holding a render frame too far ahead of the microphone frame, and paired none. */
  ghost predicate LooksAhead(r: Record, x: Input) {
    && IsSilent(r) && r.selected.value.render.held.Some?
    && x.microphone.qpc + ALIGNMENT_TOLERANCE_100NS < r.selected.value.render.held.value.qpc
  }

  lemma StepLooksAhead(w: Worker, a: Answers, x: Input)
    ensures IsMiss(Iterate(w, a, x).record) <==> LooksAhead(Iterate(w, a, x).record, x)
  {
    StepSelects(w, a, x);
    SelectIsSound(x.microphone.qpc, w.render, if x.microphone.reset then NextCreate(a).1 else a);
  }

  ghost predicate MissesAreAhead(records: seq<Record>, inputs: seq<Input>) {
    && |records| <= |inputs|
    && forall n :: 0 <= n < |records| ==> (IsMiss(records[n]) <==> LooksAhead(records[n], inputs[n]))
  }

  lemma MissesSnoc(records: seq<Record>, r: Record, inputs: seq<Input>)
    requires inputs != [] && |records| == |inputs| - 1 && MissesAreAhead(records, inputs[..|inputs| - 1])
    requires IsMiss(r) <==> LooksAhead(r, inputs[|inputs| - 1])
    ensures MissesAreAhead(records + [r], inputs)
  {
    hide IsMiss, LooksAhead;
  }

  /** A miss is exactly a selection that found its render head more than 50,000 ticks in the future. */
  lemma {:induction false} MissesLookAhead(first: Option<TimedFrame>, a: Answers, inputs: seq<Input>)
    ensures MissesAreAhead(RunLoop(Start(first), a, inputs).records, inputs)
  {
    if inputs != [] {
      var n := |inputs| - 1;
      var before := Before(Start(first), a, inputs);
      MissesLookAhead(first, a, inputs[..n]);
      OneRecordPerInput(first, a, inputs[..n]);
      hide IsMiss, LooksAhead;
      if before.exit.None? {
        RunLoopSnoc(Start(first), a, inputs);
        var step := LastStep(Start(first), a, inputs);
        StepLooksAhead(before.worker, before.answers, inputs[n]);
        MissesSnoc(before.records, step.record, inputs);
      } else {
        assert MissesAreAhead(before.records, inputs[..n]);
      }
    }
    hide IsMiss, LooksAhead, Iterate, Start;
  }

  /** No render frame is held and none is to come. */
  ghost predicate Silent(r: Progress) { r.worker.render.held.None? && Frames(r.answers.pops) == [] }

  lemma StepStaysSilent(before: Progress, x: Input)
    requires Silent(before)
    ensures var step := Iterate(before.worker, before.answers, x);
            && step.exit != Some(SkewExceeded)
            && step.worker.render.held.None? && Frames(step.answers.pops) == []
  {
    StepRender(before.worker, before.answers, x);
    MissHolds(before.worker, before.answers, x);
    hide Iterate, Frames, DisposedBy;
  }

  /**
   * Render silence of any length never ends a run, whenever it begins: from a loop head at which no
   * render frame is held or to come, no further inputs lead to a skew failure.
   */
  lemma {:induction false} SilenceNeverFails(first: Option<TimedFrame>, a: Answers, inputs: seq<Input>, n: nat)
    requires n <= |inputs|
    requires var r := RunLoop(Start(first), a, inputs[..n]); r.exit.None? && Silent(r)
    ensures var r := RunLoop(Start(first), a, inputs); r.exit != Some(SkewExceeded) && (r.exit.None? ==> Silent(r))
    decreases |inputs|
  {
    if n == |inputs| {
      assert inputs[..n] == inputs;
    } else {
      var init := inputs[..|inputs| - 1];
      assert init[..n] == inputs[..n];
      SilenceNeverFails(first, a, init, n);
      var before := Before(Start(first), a, inputs);
      if before.exit.None? {
        RunLoopSnoc(Start(first), a, inputs);
        StepStaysSilent(before, inputs[|inputs| - 1]);
      }
    }
    hide Iterate, Start, Silent;
  }

  // ---- How often one render head is missed ----

  /** The run that has got to the loop head before its k-th iteration. */
  function Until(first: Option<TimedFrame>, a: Answers, inputs: seq<Input>, k: nat): Progress
    requires k <= |inputs|
  {
    RunLoop(Start(first), a, inputs[..k])
  }

  function StepAt(first: Option<TimedFrame>, a: Answers, inputs: seq<Input>, k: nat): Iterated
    requires k < |inputs|
  {
    var before := Until(first, a, inputs, k);
    Iterate(before.worker, before.answers, inputs[k])
  }

  lemma UntilSnoc(first: Option<TimedFrame>, a: Answers, inputs: seq<Input>, k: nat)
    requires k < |inputs| && Until(first, a, inputs, k).exit.None?
    ensures var before, step := Until(first, a, inputs, k), StepAt(first, a, inputs, k);
            Until(first, a, inputs, k + 1)
            == Progress(step.worker, step.answers, before.records + [step.record], step.exit)
  {
    assert inputs[..k + 1][..k] == inputs[..k];
    RunLoopSnoc(Start(first), a, inputs[..k + 1]);
    hide RunLoop, Iterate;
  }

  /** Every record of a run was made by its iteration, from a loop head that the run went through. */
  lemma {:induction false} RunPrefix(first: Option<TimedFrame>, a: Answers, inputs: seq<Input>, n: nat, k: nat)
    requires n <= |inputs| && k < |Until(first, a, inputs, n).records|
    ensures k < n && Until(first, a, inputs, k).exit.None?
    ensures Until(first, a, inputs, n).records[..k] == Until(first, a, inputs, k).records
    ensures Until(first, a, inputs, n).records[k] == StepAt(first, a, inputs, k).record
    decreases n
  {
    OneRecordPerInput(first, a, inputs[..n]);
    var m := n - 1;
    var before := Until(first, a, inputs, m);
    OneRecordPerInput(first, a, inputs[..m]);
    assert inputs[..n][..m] == inputs[..m];
    hide Iterate, Start, StepAt;
    if before.exit.None? {
      UntilSnoc(first, a, inputs, m);
      hide RunLoop;
      if k < m {
        RunPrefix(first, a, inputs, m, k);
      }
    } else {
      RunPrefix(first, a, inputs, m, k);
    }
    hide RunLoop;
  }

  /** A scan that disposes of nothing keeps its head, and misses it unless a rebuild fails. */
  lemma StepHolds(w: Worker, a: Answers, x: Input)
    requires w.render.held.Some? && DisposedBy(Iterate(w, a, x).record) == []
    ensures var step := Iterate(w, a, x);
            step.worker.render.held == w.render.held && (step.exit.None? ==> IsMiss(step.record))
  {
    StepSelects(w, a, x);
    ScanHolds(x.microphone.qpc, w.render, if x.microphone.reset then NextCreate(a).1 else a);
    ExitNone(w, a, x);
    hide Iterate, Scan;
  }

  lemma ScanHolds(microphone: nat, r: Render, a: Answers)
    requires r.held.Some?
    ensures var s := Select(microphone, r, a);
            s.stale == [] && s.paired.None? ==> s.render.held == r.held && (s.failed || s.delta.Some?)
  {
  }

  lemma ExitNone(w: Worker, a: Answers, x: Input)
    ensures var step := Iterate(w, a, x);
            step.exit.None? ==> step.record.selected.Some? && !step.record.selected.value.failed
  {
    hide Select, Scanned, Judged, Recorded, Realigned, Echo, Deliver;
  }

  /** How many render frames were gone before the head that record k was left with. */
  function HeadPosition(records: seq<Record>, k: nat): nat
    requires k < |records|
  {
    |Disposed(records[..k + 1])|
  }

  lemma HeadStep(records: seq<Record>, k: nat)
    requires 0 < k < |records|
    ensures HeadPosition(records, k) == HeadPosition(records, k - 1) + |DisposedBy(records[k])|
  {
    assert records[..k + 1] == records[..k] + [records[k]];
    TallySnoc(records[..k], records[k]);
    hide Disposed;
  }

  lemma {:induction false} HeadGrows(records: seq<Record>, i: nat, j: nat)
    requires i <= j < |records|
    ensures HeadPosition(records, i) <= HeadPosition(records, j)
    decreases j
  {
    if i < j {
      HeadGrows(records, i, j - 1);
      HeadStep(records, j);
    }
    hide HeadPosition;
  }

  /** The head that was missed at `i` is still held after `k`, and missed there unless the run ends. */
  ghost predicate StillMissed(first: Option<TimedFrame>, a: Answers, inputs: seq<Input>, i: nat, k: nat)
    requires i <= k < |inputs|
  {
    var step := StepAt(first, a, inputs, k);
    && step.worker.render.held.Some?
    && step.worker.render.held == StepAt(first, a, inputs, i).worker.render.held
    && (step.exit.None? ==> IsMiss(step.record))
  }

  lemma WholeRun(first: Option<TimedFrame>, a: Answers, inputs: seq<Input>)
    ensures Until(first, a, inputs, |inputs|) == RunLoop(Start(first), a, inputs)
  {
    assert inputs[..|inputs|] == inputs;
    hide RunLoop;
  }

  lemma RecordsOf(first: Option<TimedFrame>, a: Answers, inputs: seq<Input>, k: nat)
    requires k < |RunLoop(Start(first), a, inputs).records|
    ensures var records := RunLoop(Start(first), a, inputs).records;
            && k < |inputs| && Until(first, a, inputs, k).exit.None?
            && records[..k] == Until(first, a, inputs, k).records && records[k] == StepAt(first, a, inputs, k).record
  {
    WholeRun(first, a, inputs);
    RunPrefix(first, a, inputs, |inputs|, k);
    hide RunLoop, Until, StepAt;
  }

  lemma MissedAt(first: Option<TimedFrame>, a: Answers, inputs: seq<Input>, i: nat)
    requires i < |inputs| && IsMiss(StepAt(first, a, inputs, i).record)
    ensures StillMissed(first, a, inputs, i, i)
  {
    var before := Until(first, a, inputs, i);
    MissIsHeld(before.worker, before.answers, inputs[i]);
    hide Until, Iterate, IsMiss;
  }

  lemma MissedNext(first: Option<TimedFrame>, a: Answers, inputs: seq<Input>, i: nat, j: nat)
    requires i < j < |inputs| && StillMissed(first, a, inputs, i, j - 1)
    requires Until(first, a, inputs, j - 1).exit.None? && DisposedBy(StepAt(first, a, inputs, j).record) == []
    ensures StillMissed(first, a, inputs, i, j)
  {
    UntilSnoc(first, a, inputs, j - 1);
    var before := Until(first, a, inputs, j);
    hide Until, Iterate, IsMiss;
    StepHolds(before.worker, before.answers, inputs[j]);
  }

  lemma {:induction false} HeadStays(first: Option<TimedFrame>, a: Answers, inputs: seq<Input>, i: nat, j: nat)
    requires |RunLoop(Start(first), a, inputs).records| <= |inputs|
    requires i <= j < |RunLoop(Start(first), a, inputs).records|
    requires IsMiss(RunLoop(Start(first), a, inputs).records[i])
    requires var records := RunLoop(Start(first), a, inputs).records;
             HeadPosition(records, i) == HeadPosition(records, j)
    ensures StillMissed(first, a, inputs, i, j)
    decreases j
  {
    hide RunLoop, Start, Until, StepAt, StillMissed, HeadPosition, IsMiss, DisposedBy;
    var records := RunLoop(Start(first), a, inputs).records;
    RecordsOf(first, a, inputs, j);
    if i == j {
      MissedAt(first, a, inputs, i);
    } else {
      HeadGrows(records, i, j - 1);
      HeadStep(records, j);
      HeadStays(first, a, inputs, i, j - 1);
      RecordsOf(first, a, inputs, j - 1);
      MissedNext(first, a, inputs, i, j);
    }
  }

  lemma MissIsHeld(w: Worker, a: Answers, x: Input)
    requires IsMiss(Iterate(w, a, x).record)
    ensures Iterate(w, a, x).worker.render.held.Some?
  {
    StepSelects(w, a, x);
    SelectIsSound(x.microphone.qpc, w.render, if x.microphone.reset then NextCreate(a).1 else a);
    hide Iterate, Select;
  }

  /**
   * A future render frame is examined and missed at most 50 times: between two misses with the same
   * head there are only misses of it, and the two are less than 50 iterations apart.
   */
  lemma HeadIsMissedAtMost50(first: Option<TimedFrame>, a: Answers, inputs: seq<Input>, i: nat, j: nat)
    requires var records := RunLoop(Start(first), a, inputs).records;
             && i <= j < |records| && IsMiss(records[i]) && IsMiss(records[j])
             && HeadPosition(records, i) == HeadPosition(records, j)
    ensures var records := RunLoop(Start(first), a, inputs).records;
            && j - i < 50
            && forall k :: i <= k <= j ==>
                 && IsMiss(records[k])
                 && records[k].selected.value.render.held == records[i].selected.value.render.held
  {
    var records := RunLoop(Start(first), a, inputs).records;
    OneRecordPerInput(first, a, inputs);
    hide RunLoop, Start, HeadPosition;
    forall k | i <= k <= j
      ensures IsMiss(records[k]) && records[k].selected.value.render.held == records[i].selected.value.render.held
    {
      MissedBetween(first, a, inputs, i, j, k);
    }
    RecordsOf(first, a, inputs, j);
    CountersAreStreaks(first, a, inputs[..j]);
    assert LastAll(IsMiss, records[..j], j - i);
    StreakIsLastAll(IsMiss, records[..j], j - i);
  }

  lemma SelectedHeld(first: Option<TimedFrame>, a: Answers, inputs: seq<Input>, k: nat)
    requires k < |inputs|
    ensures var step := StepAt(first, a, inputs, k);
            step.record.selected.Some? ==> step.record.selected.value.render == step.worker.render
  {
    var before := Until(first, a, inputs, k);
    StepSelects(before.worker, before.answers, inputs[k]);
    hide Until, Iterate, Select;
  }

  lemma GoesOn(first: Option<TimedFrame>, a: Answers, inputs: seq<Input>, k: nat)
    requires k + 1 < |RunLoop(Start(first), a, inputs).records| && k < |inputs|
    ensures StepAt(first, a, inputs, k).exit.None?
  {
    RecordsOf(first, a, inputs, k);
    RecordsOf(first, a, inputs, k + 1);
    UntilSnoc(first, a, inputs, k);
    hide RunLoop, Start, Until, StepAt;
  }

  lemma MissedBetween(first: Option<TimedFrame>, a: Answers, inputs: seq<Input>, i: nat, j: nat, k: nat)
    requires var records := RunLoop(Start(first), a, inputs).records;
             && i <= k <= j < |records| <= |inputs| && IsMiss(records[i]) && IsMiss(records[j])
             && HeadPosition(records, i) == HeadPosition(records, j)
    ensures var records := RunLoop(Start(first), a, inputs).records;
            && IsMiss(records[k]) && records[k].selected.value.render.held == records[i].selected.value.render.held
  {
    var records := RunLoop(Start(first), a, inputs).records;
    hide RunLoop, Start, Until, StepAt, HeadPosition;
    HeadGrows(records, i, k);
    HeadGrows(records, k, j);
    HeadStays(first, a, inputs, i, k);
    RecordsOf(first, a, inputs, i);
    RecordsOf(first, a, inputs, k);
    SelectedHeld(first, a, inputs, i);
    SelectedHeld(first, a, inputs, k);
    if k < j {
      GoesOn(first, a, inputs, k);
    }
  }

  lemma MissHolds(w: Worker, a: Answers, x: Input)
    ensures Iterate(w, a, x).exit == Some(SkewExceeded) ==> Iterate(w, a, x).worker.render.held.Some?
  {
    StepCounters(w, a, x);
    var (_, a') := if x.microphone.reset then NextCreate(a) else (true, a);
    SelectIsSound(x.microphone.qpc, w.render, a');
  }
}
