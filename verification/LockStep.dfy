/** Two gap-free streams: how the AEC loop starts up, when it gives up, and that it then stays locked. */
module LockStep {
  import opened AudioTypes
  import opened TimedFraming
  import opened Pairing
  import opened AecLoop
  import opened AecTheorems

  /** The stamp of frame `k` of a gap-free stream. */
  function Tick(origin: nat, k: nat): nat { origin + 100_000 * k }

  ghost predicate GapFree(frames: seq<TimedFrame>, origin: nat) {
    forall j :: 0 <= j < |frames| ==> frames[j].qpc == Tick(origin, j) && !frames[j].reset
  }

  /** Gap-free microphone frames with a canceller and a sink that work. */
  ghost predicate Nominal(inputs: seq<Input>, origin: nat) {
    forall k :: 0 <= k < |inputs| ==>
      && inputs[k].microphone.qpc == Tick(origin, k) && !inputs[k].microphone.reset
      && !AecFailed(inputs[k]) && inputs[k].writeOk && inputs[k].diagnosticsOk
  }

  /** Frames of `excess` ticks beyond the tolerance, rounded up. */
  function FramesBeyondTolerance(excess: int): nat {
    if excess <= ALIGNMENT_TOLERANCE_100NS then 0
    else (excess - ALIGNMENT_TOLERANCE_100NS + 100_000 - 1) / 100_000
  }

  /** What a selection does when render frames `j` to `j + m` are stale and `j + m` is not. */
  ghost predicate Finds(s: Selected, microphone: nat, rs: seq<TimedFrame>, j: nat, m: nat)
    requires j + m < |rs|
  {
    var f, future := rs[j + m], microphone + ALIGNMENT_TOLERANCE_100NS < rs[j + m].qpc;
    && s.stale == rs[j..j + m] && !s.failed
    && s.delta == Some(SignedDelta(f.qpc, microphone))
    && s.paired == (if future then None else Some(f))
    && s.rebuilds == 0
    && At(rs, if future then j + m else j + m + 1, s.render, s.answers)
  }

  ghost predicate StaleUntil(microphone: nat, rs: seq<TimedFrame>, j: nat, m: nat) {
    && j + m < |rs| && microphone <= rs[j + m].qpc + ALIGNMENT_TOLERANCE_100NS
    && forall x :: j <= x < j + m ==> rs[x].qpc + ALIGNMENT_TOLERANCE_100NS < microphone
  }

  lemma ScanFindsHead(microphone: nat, rs: seq<TimedFrame>, j: nat, r: Render, a: Answers)
    requires At(rs, j, r, a) && r.held.Some? && StaleUntil(microphone, rs, j, 0) && !rs[j].reset
    ensures Finds(Scan(microphone, r, a), microphone, rs, j, 0)
  {
    PopAdvances(rs, j, r, a);
    assert rs[j..j] == [];
  }

  lemma FindsAfterStale(s: Selected, rest: Selected, microphone: nat, rs: seq<TimedFrame>, j: nat, m: nat)
    requires 0 < m && j + m < |rs| && Finds(rest, microphone, rs, j + 1, m - 1)
    requires s == rest.(stale := [rs[j]] + rest.stale)
    ensures Finds(s, microphone, rs, j, m)
  {
    assert rs[j..j + m] == [rs[j]] + rs[j + 1..j + m];
  }

  lemma {:induction false} ScanFinds(microphone: nat, rs: seq<TimedFrame>, j: nat, m: nat, r: Render, a: Answers)
    requires At(rs, j, r, a) && r.held.Some? && StaleUntil(microphone, rs, j, m)
    requires forall x :: j <= x <= j + m ==> !rs[x].reset
    ensures Finds(Scan(microphone, r, a), microphone, rs, j, m)
    decreases m
  {
    hide Scan, Finds, NextPop, SignedDelta, Remaining;
    if m == 0 {
      ScanFindsHead(microphone, rs, j, r, a);
    } else {
      PopAdvances(rs, j, r, a);
      var (next, a') := NextPop(a);
      var r' := r.(held := next);
      HeldWhenPresent(rs, j + 1, r', a');
      LookAt(microphone, r, a);
      DeltaCompares(r.held.value.qpc, microphone);
      assert StaleUntil(microphone, rs, j + 1, m - 1);
      hide At, StaleUntil;
      ScanFinds(microphone, rs, j + 1, m - 1, r', a');
      FindsAfterStale(Scan(microphone, r, a), Scan(microphone, r', a'), microphone, rs, j, m);
    }
  }

  lemma HeldWhenPresent(rs: seq<TimedFrame>, j: nat, r: Render, a: Answers)
    requires At(rs, j, r, a) && j < |rs| && (r.held.None? ==> a.pops == [])
    ensures r.held.Some?
  {
    assert rs[j] in rs[j..];
  }

  lemma SelectFinds(microphone: nat, rs: seq<TimedFrame>, j: nat, m: nat, r: Render, a: Answers) returns (s: Selected)
    requires At(rs, j, r, a) && StaleUntil(microphone, rs, j, m)
    requires forall x :: j <= x <= j + m ==> !rs[x].reset
    ensures s == Select(microphone, r, a) && Finds(s, microphone, rs, j, m)
  {
    s := Select(microphone, r, a);
    if r.held.Some? {
      ScanFinds(microphone, rs, j, m, r, a);
    } else {
      NextPopFrames(a);
      var (next, a') := NextPop(a);
      HeldWhenPresent(rs, j, Render(next, next.None?), a');
      ScanFinds(microphone, rs, j, m, Render(next, next.None?), a');
    }
  }

  /** Iteration `k` of the locked run: silent while render leads, then always the next render frame. */
  ghost predicate Locked(r: Record, k: nat, rs: seq<TimedFrame>, lead: nat, lag: nat, difference: int) {
    && r.selected.Some? && !r.aecFailed && !r.selected.value.failed
    && var s := r.selected.value;
    && s.stale == (if k == 0 && lag < |rs| then rs[..lag] else [])
    && (k < lead ==> s.paired.None? && s.delta == Some(Min(I64_MAX, difference - 100_000 * k)))
    && (k >= lead ==>
          && lag + k - lead < |rs|
          && s.paired == Some(rs[lag + k - lead])
          && s.delta == Some(difference + 100_000 * (lag - lead)))
  }

  /** The render frame the worker looks at after `n` microphone frames. */
  function NextIndex(n: nat, lead: nat, lag: nat): nat {
    if n == 0 || n <= lead then 0 else lag + n - lead
  }

  ghost predicate InLockStep(r: Progress, n: nat, rs: seq<TimedFrame>, lead: nat, lag: nat, difference: int) {
    && r.exit.None? && |r.records| == n
    && At(rs, NextIndex(n, lead, lag), r.worker.render, r.answers)
    && r.worker.skewMisses == (if n <= lead then n else 0) && r.worker.skewMisses < MAX_CONSECUTIVE_RENDER_MISSES
    && forall k :: 0 <= k < n ==> Locked(r.records[k], k, rs, lead, lag, difference)
  }

  /** `lead` silent references, or `lag` stale frames, bring the streams within tolerance, and no fewer. */
  ghost predicate Meets(difference: int, lead: nat, lag: nat) {
    && (lead == 0 || lag == 0)
    && (lead > 0 ==> difference - 100_000 * (lead - 1) > ALIGNMENT_TOLERANCE_100NS)
    && (lag > 0 ==> difference + 100_000 * (lag - 1) < -ALIGNMENT_TOLERANCE_100NS)
    && -ALIGNMENT_TOLERANCE_100NS <= difference + 100_000 * (lag - lead) <= ALIGNMENT_TOLERANCE_100NS
  }

  lemma RoundedUpMeets(difference: int)
    ensures Meets(difference, FramesBeyondTolerance(difference), FramesBeyondTolerance(-difference))
    ensures FramesBeyondTolerance(difference) >= MAX_CONSECUTIVE_RENDER_MISSES <==> difference > 4_950_000
  {
  }

  /** The render frame that iteration `n` ends up looking at. */
  function MetIndex(n: nat, lead: nat, lag: nat): nat { if n < lead then 0 else lag + n - lead }

  lemma Delta(rs: seq<TimedFrame>, render: nat, mic: nat, n: nat, lead: nat, lag: nat)
    requires GapFree(rs, render) && Meets(render - mic, lead, lag) && n + lag < |rs|
    ensures var delta := rs[MetIndex(n, lead, lag)].qpc - Tick(mic, n);
            && (n < lead ==> delta == render - mic - 100_000 * n > ALIGNMENT_TOLERANCE_100NS)
            && (n >= lead ==>
                  && delta == render - mic + 100_000 * (lag - lead)
                  && -ALIGNMENT_TOLERANCE_100NS <= delta <= ALIGNMENT_TOLERANCE_100NS)
  {
  }

  lemma StaleUntilMet(rs: seq<TimedFrame>, render: nat, mic: nat, n: nat, lead: nat, lag: nat)
    requires GapFree(rs, render) && Meets(render - mic, lead, lag) && n + lag < |rs|
    ensures var j, met := NextIndex(n, lead, lag), MetIndex(n, lead, lag);
            j <= met && StaleUntil(Tick(mic, n), rs, j, met - j)
  {
    Delta(rs, render, mic, n, lead, lag);
  }

  lemma FindsLocks(rs: seq<TimedFrame>, render: nat, mic: nat, n: nat, s: Selected, lead: nat, lag: nat)
    requires GapFree(rs, render) && Meets(render - mic, lead, lag) && n + lag < |rs|
    requires var j := NextIndex(n, lead, lag);
             j <= MetIndex(n, lead, lag) && Finds(s, Tick(mic, n), rs, j, MetIndex(n, lead, lag) - j)
    ensures Locked(Record(Some(s), None, false, false, None), n, rs, lead, lag, render - mic)
    ensures At(rs, NextIndex(n + 1, lead, lag), s.render, s.answers)
  {
    Delta(rs, render, mic, n, lead, lag);
  }

  lemma LockStepSelects(rs: seq<TimedFrame>, render: nat, mic: nat, n: nat, r: Render, a: Answers, lead: nat, lag: nat)
    returns (s: Selected)
    requires GapFree(rs, render) && Meets(render - mic, lead, lag)
    requires At(rs, NextIndex(n, lead, lag), r, a) && n + lag < |rs|
    ensures s == Select(Tick(mic, n), r, a)
    ensures Locked(Record(Some(s), None, false, false, None), n, rs, lead, lag, render - mic)
    ensures At(rs, NextIndex(n + 1, lead, lag), s.render, s.answers)
  {
    hide Scan, Finds, Locked, At, Select;
    var j, met := NextIndex(n, lead, lag), MetIndex(n, lead, lag);
    StaleUntilMet(rs, render, mic, n, lead, lag);
    s := SelectFinds(Tick(mic, n), rs, j, met - j, r, a);
    FindsLocks(rs, render, mic, n, s, lead, lag);
  }

  lemma NominalStep(w: Worker, a: Answers, x: Input)
    requires !x.microphone.reset && !AecFailed(x) && x.writeOk && x.diagnosticsOk
    requires !Select(x.microphone.qpc, w.render, a).failed
    ensures var it, s := Iterate(w, a, x), Select(x.microphone.qpc, w.render, a);
            var missed := if s.paired.None? && s.delta.Some? then Increment(w.skewMisses) else 0;
            && it.record.selected == Some(s) && !it.record.aecFailed
            && it.worker.render == s.render && it.answers == s.answers && it.worker.skewMisses == missed
            && it.exit == (if missed >= MAX_CONSECUTIVE_RENDER_MISSES then Some(SkewExceeded) else None)
  {
  }

  lemma LockedStep(
      before: Progress, x: Input, n: nat, rs: seq<TimedFrame>, render: nat, mic: nat, lead: nat, lag: nat)
    requires GapFree(rs, render) && Meets(render - mic, lead, lag) && n + lag < |rs|
    requires Nominal([x], Tick(mic, n))
    requires InLockStep(before, n, rs, lead, lag, render - mic)
    ensures var it := Iterate(before.worker, before.answers, x);
            && Locked(it.record, n, rs, lead, lag, render - mic)
            && At(rs, NextIndex(n + 1, lead, lag), it.worker.render, it.answers)
            && it.worker.skewMisses == (if n < lead then n + 1 else 0)
            && it.exit == (if it.worker.skewMisses >= MAX_CONSECUTIVE_RENDER_MISSES then Some(SkewExceeded) else None)
  {
    assert x == [x][0];
    assert x.microphone.qpc == Tick(mic, n);
    assert !x.microphone.reset && !AecFailed(x) && x.writeOk && x.diagnosticsOk;
    hide Scan, Select, Iterate, At, AecFailed, Meets, GapFree;
    var s := LockStepSelects(rs, render, mic, n, before.worker.render, before.answers, lead, lag);
    NominalStep(before.worker, before.answers, x);
  }

  lemma InLockStepSnoc(
      before: Progress, step: Iterated, n: nat, rs: seq<TimedFrame>, lead: nat, lag: nat, difference: int)
    requires InLockStep(before, n, rs, lead, lag, difference)
    requires step.exit.None? && Locked(step.record, n, rs, lead, lag, difference)
    requires At(rs, NextIndex(n + 1, lead, lag), step.worker.render, step.answers)
    requires step.worker.skewMisses == (if n < lead then n + 1 else 0) < MAX_CONSECUTIVE_RENDER_MISSES
    ensures InLockStep(Progress(step.worker, step.answers, before.records + [step.record], step.exit),
                       n + 1, rs, lead, lag, difference)
  {
  }

  lemma NominalSplit(inputs: seq<Input>, mic: nat)
    requires inputs != [] && Nominal(inputs, mic)
    ensures var n := |inputs| - 1; Nominal(inputs[..n], mic) && Nominal([inputs[n]], Tick(mic, n))
  {
    hide AecFailed;
  }

  lemma LockStepExtends(
      first: Option<TimedFrame>, a: Answers, inputs: seq<Input>, rs: seq<TimedFrame>,
      render: nat, mic: nat, lead: nat, lag: nat)
    requires GapFree(rs, render) && Nominal(inputs, mic) && Meets(render - mic, lead, lag)
    requires inputs != [] && |inputs| + lag <= |rs|
    requires lead < MAX_CONSECUTIVE_RENDER_MISSES || |inputs| < MAX_CONSECUTIVE_RENDER_MISSES
    requires InLockStep(Before(Start(first), a, inputs), |inputs| - 1, rs, lead, lag, render - mic)
    ensures InLockStep(RunLoop(Start(first), a, inputs), |inputs|, rs, lead, lag, render - mic)
  {
    hide Iterate, At, Locked, Nominal, GapFree, Meets, Start;
    var n := |inputs| - 1;
    var before, step := Before(Start(first), a, inputs), LastStep(Start(first), a, inputs);
    NominalSplit(inputs, mic);
    RunLoopSnoc(Start(first), a, inputs);
    hide RunLoop;
    LockedStep(before, inputs[n], n, rs, render, mic, lead, lag);
    hide InLockStep;
    InLockStepSnoc(before, step, n, rs, lead, lag, render - mic);
  }

  lemma NothingYet(
      first: Option<TimedFrame>, a: Answers, rs: seq<TimedFrame>, lead: nat, lag: nat, difference: int)
    requires At(rs, 0, Start(first).render, a)
    ensures InLockStep(RunLoop(Start(first), a, []), 0, rs, lead, lag, difference)
  {
    hide At;
  }

  lemma {:induction false} StaysInLockStep(
      first: Option<TimedFrame>, a: Answers, inputs: seq<Input>, rs: seq<TimedFrame>,
      render: nat, mic: nat, lead: nat, lag: nat)
    requires GapFree(rs, render) && Nominal(inputs, mic) && Meets(render - mic, lead, lag)
    requires At(rs, 0, Start(first).render, a) && |inputs| + lag <= |rs|
    requires lead < MAX_CONSECUTIVE_RENDER_MISSES || |inputs| < MAX_CONSECUTIVE_RENDER_MISSES
    ensures InLockStep(RunLoop(Start(first), a, inputs), |inputs|, rs, lead, lag, render - mic)
  {
    hide *;
    if inputs == [] {
      NothingYet(first, a, rs, lead, lag, render - mic);
    } else {
      NominalSplit(inputs, mic);
      StaysInLockStep(first, a, inputs[..|inputs| - 1], rs, render, mic, lead, lag);
      LockStepExtends(first, a, inputs, rs, render, mic, lead, lag) by {
        BeforeIs(Start(first), a, inputs);
      }
    }
  }

  lemma BeforeIs(w: Worker, a: Answers, inputs: seq<Input>)
    requires inputs != []
    ensures Before(w, a, inputs) == RunLoop(w, a, inputs[..|inputs| - 1])
  {
  }

  /**
   * Lock-step: with gap-free streams that start `render - mic` ticks apart, exactly `lead` silent
   * references come first, or exactly `lag` stale frames are dropped, and from the first pair on every
   * microphone frame gets the next render frame at the same distance, with no stale frame. The run ends
   * in a skew failure, at its fiftieth frame, exactly when render starts more than 4,950,000 ticks ahead.
   */
  lemma LockStepTheorem(
      first: Option<TimedFrame>, a: Answers, inputs: seq<Input>, rs: seq<TimedFrame>, render: nat, mic: nat)
    requires GapFree(rs, render) && Nominal(inputs, mic)
    requires At(rs, 0, Start(first).render, a) && |inputs| + FramesBeyondTolerance(mic - render) <= |rs|
    ensures var lead, lag := FramesBeyondTolerance(render - mic), FramesBeyondTolerance(mic - render);
            var r := RunLoop(Start(first), a, inputs);
            if render - mic > 4_950_000 && |inputs| >= MAX_CONSECUTIVE_RENDER_MISSES then
              && r.exit == Some(SkewExceeded) && |r.records| == MAX_CONSECUTIVE_RENDER_MISSES
              && forall k :: 0 <= k < |r.records| ==> IsMiss(r.records[k])
            else
              && r.exit.None? && |r.records| == |inputs|
              && forall k :: 0 <= k < |r.records| ==> Locked(r.records[k], k, rs, lead, lag, render - mic)
  {
    var lead, lag := FramesBeyondTolerance(render - mic), FramesBeyondTolerance(mic - render);
    RoundedUpMeets(render - mic);
    if lead < MAX_CONSECUTIVE_RENDER_MISSES || |inputs| < MAX_CONSECUTIVE_RENDER_MISSES {
      StaysInLockStep(first, a, inputs, rs, render, mic, lead, lag);
    } else {
      GivesUp(first, a, inputs, rs, render, mic, lead, lag);
    }
  }

  lemma GivesUp(
      first: Option<TimedFrame>, a: Answers, inputs: seq<Input>, rs: seq<TimedFrame>,
      render: nat, mic: nat, lead: nat, lag: nat)
    requires GapFree(rs, render) && Nominal(inputs, mic) && Meets(render - mic, lead, lag)
    requires At(rs, 0, Start(first).render, a) && |inputs| + lag <= |rs|
    requires lead >= MAX_CONSECUTIVE_RENDER_MISSES && |inputs| >= MAX_CONSECUTIVE_RENDER_MISSES
    ensures var r := RunLoop(Start(first), a, inputs);
            && r.exit == Some(SkewExceeded) && |r.records| == MAX_CONSECUTIVE_RENDER_MISSES
            && forall k :: 0 <= k < |r.records| ==> IsMiss(r.records[k])
  {
    hide Nominal, GapFree, Meets, Start, At, Locked, Iterate, RunLoop, IsMiss;
    var n := MAX_CONSECUTIVE_RENDER_MISSES;
    var start := inputs[..n];
    assert start[..n - 1] == inputs[..n - 1];
    NominalPrefix(inputs, mic, n - 1);
    NominalPrefix(inputs, mic, n);
    NominalSplit(start, mic);
    StaysInLockStep(first, a, start[..n - 1], rs, render, mic, lead, lag);
    BeforeIs(Start(first), a, start);
    var before := Before(Start(first), a, start);
    var step := LastStep(Start(first), a, start);
    LockedStep(before, start[n - 1], n - 1, rs, render, mic, lead, lag);
    RunLoopSnoc(Start(first), a, start);
    RunStaysExited(Start(first), a, inputs, n);
    hide InLockStep, LastStep;
    forall k | 0 <= k < n ensures IsMiss((before.records + [step.record])[k]) {
      LeadIsMissed(before, step, rs, lead, lag, render - mic, k);
    }
  }

  lemma NominalPrefix(inputs: seq<Input>, mic: nat, n: nat)
    requires n <= |inputs| && Nominal(inputs, mic)
    ensures Nominal(inputs[..n], mic)
  {
    hide AecFailed;
  }

  lemma LeadIsMissed(
      before: Progress, step: Iterated, rs: seq<TimedFrame>, lead: nat, lag: nat, difference: int, k: nat)
    requires k < MAX_CONSECUTIVE_RENDER_MISSES <= lead
    requires InLockStep(before, MAX_CONSECUTIVE_RENDER_MISSES - 1, rs, lead, lag, difference)
    requires Locked(step.record, MAX_CONSECUTIVE_RENDER_MISSES - 1, rs, lead, lag, difference)
    ensures IsMiss((before.records + [step.record])[k])
  {
    hide At;
    assert Locked((before.records + [step.record])[k], k, rs, lead, lag, difference);
  }
}
