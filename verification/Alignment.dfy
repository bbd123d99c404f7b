/** Track alignment of crates/mini-aec-lab/src/offline.rs. */
module Alignment {
  import opened AudioTypes
  import opened TimedFraming

  const SAMPLE_RATE: nat := 48_000

  /** A tick difference in samples, rounded to nearest. */
  function TicksToSamples(delta: nat): nat {
    (delta * SAMPLE_RATE + QPC_TICKS_PER_SECOND / 2) / QPC_TICKS_PER_SECOND
  }

  lemma OffsetIsClose(n: nat)
    ensures -1 <= 3 * SampleOffset(n) - 625 * n <= 1
  {
    SampleOffsetThirds(n / 3, n % 3);
  }

  lemma Nearest(ticks: nat, n: nat)
    requires -2 <= 3 * ticks - 625 * n <= 2
    ensures TicksToSamples(ticks) == n
  {
    var numerator := ticks * SAMPLE_RATE + QPC_TICKS_PER_SECOND / 2;
    assert numerator == 10_000_000 * n + 16_000 * (3 * ticks - 625 * n) + 5_000_000;
  }

  /** The ticks between any two samples of a timeline give back their distance, whatever was rounded. */
  lemma SpanRoundTrip(start: nat, n: nat)
    ensures SampleOffset(start) <= SampleOffset(start + n)
    ensures TicksToSamples(SampleOffset(start + n) - SampleOffset(start)) == n
  {
    OffsetIsClose(start);
    OffsetIsClose(start + n);
    hide SampleOffset, TicksToSamples;
    Nearest(SampleOffset(start + n) - SampleOffset(start), n);
  }

  /** Samples survive the trip through ticks exactly, for every count. */
  lemma SamplesRoundTrip(n: nat)
    ensures TicksToSamples(SampleOffset(n)) == n
  {
    OffsetIsClose(n);
    Nearest(SampleOffset(n), n);
    hide SampleOffset, TicksToSamples;
  }

  /** Ticks survive the trip through samples up to half a sample, that is 104 ticks. */
  lemma TicksRoundTrip(ticks: nat)
    ensures -104 <= SampleOffset(TicksToSamples(ticks)) - ticks <= 104
  {
    var n := TicksToSamples(ticks);
    var numerator := ticks * SAMPLE_RATE + QPC_TICKS_PER_SECOND / 2;
    assert 10_000_000 * n <= numerator < 10_000_000 * (n + 1);
    assert -5_000_000 < 48_000 * ticks - 10_000_000 * n + 1 && 48_000 * ticks - 10_000_000 * n < 5_000_000;
    SampleOffsetThirds(n / 3, n % 3);
    assert -1 <= 3 * SampleOffset(n) - 625 * n <= 1;
  }

  /** The whole number of frames that hold `n` samples. */
  function FrameCeiling(n: nat): (r: nat)
    ensures r % FRAME_SAMPLES == 0 && n <= r < n + FRAME_SAMPLES
  {
    (n + FRAME_SAMPLES - 1) / FRAME_SAMPLES * FRAME_SAMPLES
  }

  function Zeros(n: nat): seq<real> { seq(n, _ => 0.0) }

  /** A track starting at `offset` in `total` samples of silence. */
  function Placed(track: seq<real>, offset: nat, total: nat): (r: seq<real>)
    requires offset + |track| <= total
    ensures |r| == total
  {
    Zeros(offset) + track + Zeros(total - offset - |track|)
  }

  /** Milliseconds by which `left` is later than `right`, computed from whole seconds and the rest. */
  function DeltaMs(delta: nat): real {
    (delta / QPC_TICKS_PER_SECOND) as real * 1_000.0
      + (delta % QPC_TICKS_PER_SECOND) as real * 1_000.0 / QPC_TICKS_PER_SECOND as real
  }

  function SignedDeltaMs(left: nat, right: nat): real {
    if left >= right then DeltaMs(left - right) else -DeltaMs(right - left)
  }

  lemma SignedDeltaMsIsExact(left: nat, right: nat)
    ensures SignedDeltaMs(left, right) == (left - right) as real / 10_000.0
  {
    var delta := if left >= right then left - right else right - left;
    assert delta == delta / QPC_TICKS_PER_SECOND * QPC_TICKS_PER_SECOND + delta % QPC_TICKS_PER_SECOND;
    assert delta as real
        == (delta / QPC_TICKS_PER_SECOND) as real * 10_000_000.0 + (delta % QPC_TICKS_PER_SECOND) as real;
  }

  datatype Offsets = Offsets(microphone: nat, render: nat, total: nat)

  /** Where the two tracks go: the earlier one first, the later one as many samples in as it started late. */
  function Plan(microphoneLen: nat, renderLen: nat, microphoneQpc: nat, renderQpc: nat): Offsets {
    var origin := Min(microphoneQpc, renderQpc);
    var m, r := TicksToSamples(microphoneQpc - origin), TicksToSamples(renderQpc - origin);
    Offsets(m, r, FrameCeiling(Max(m + microphoneLen, r + renderLen)))
  }

  /** One track starts at once, both fit, and less than a frame is added. */
  lemma PlanIsTight(microphoneLen: nat, renderLen: nat, microphoneQpc: nat, renderQpc: nat)
    ensures var p := Plan(microphoneLen, renderLen, microphoneQpc, renderQpc);
            var needed := Max(p.microphone + microphoneLen, p.render + renderLen);
            && (p.microphone == 0 || p.render == 0)
            && p.total % FRAME_SAMPLES == 0 && needed <= p.total < needed + FRAME_SAMPLES
  {
  }

  /** Tracks that start at samples `m` and `r` of one timeline are offset by exactly the difference. */
  lemma PlanIsExact(microphoneLen: nat, renderLen: nat, base: nat, m: nat, r: nat)
    ensures var p := Plan(microphoneLen, renderLen, base + SampleOffset(m), base + SampleOffset(r));
            p.microphone == m - Min(m, r) && p.render == r - Min(m, r)
  {
    SamplesRoundTrip(0);
    SpanRoundTrip(Min(m, r), Max(m, r) - Min(m, r));
    hide TicksToSamples, FrameCeiling;
  }

  lemma PlacedAt(track: seq<real>, offset: nat, total: nat, k: nat)
    requires offset + |track| <= total && k < |track|
    ensures Placed(track, offset, total)[offset + k] == track[k]
  {
  }

  /** Outside the track there is silence. */
  lemma PlacedElsewhere(track: seq<real>, offset: nat, total: nat, k: nat)
    requires offset + |track| <= total && k < total && !(offset <= k < offset + |track|)
    ensures Placed(track, offset, total)[k] == 0.0
  {
  }

  /** For any two stamps: the offsets differ by the tick difference, to the nearest sample, the earlier one at 0. */
  lemma PlanIsNearest(microphoneLen: nat, renderLen: nat, microphoneQpc: nat, renderQpc: nat)
    ensures var p := Plan(microphoneLen, renderLen, microphoneQpc, renderQpc);
            var ticks, samples := microphoneQpc - renderQpc, p.microphone - p.render;
            && -5_000_000 <= 48_000 * ticks - 10_000_000 * samples <= 5_000_000
            && (microphoneQpc <= renderQpc ==> p.microphone == 0) && (renderQpc <= microphoneQpc ==> p.render == 0)
  {
    NearestSample(Max(microphoneQpc, renderQpc) - Min(microphoneQpc, renderQpc));
    NearestSample(0);
    hide TicksToSamples, FrameCeiling;
  }

  lemma NearestSample(ticks: nat)
    ensures -5_000_000 <= 48_000 * ticks - 10_000_000 * TicksToSamples(ticks) < 5_000_000
    ensures ticks == 0 ==> TicksToSamples(ticks) == 0
  {
    var numerator := ticks * SAMPLE_RATE + QPC_TICKS_PER_SECOND / 2;
    var n := TicksToSamples(ticks);
    assert 10_000_000 * n <= numerator < 10_000_000 * (n + 1);
  }

  /**
   * Two tracks cut from one timeline anywhere, and stamped by the engine's own rounding, are aligned
   * exactly, whichever starts first: samples taken at the same instant `x` get the same index.
   */
  lemma AlignmentIsExact(microphone: seq<real>, render: seq<real>, base: nat, m: nat, r: nat, x: nat)
    requires m <= x < m + |microphone| && r <= x < r + |render|
    ensures var p := Plan(|microphone|, |render|, base + SampleOffset(m), base + SampleOffset(r));
            var at := x - Min(m, r);
            && p.microphone + |microphone| <= p.total && p.render + |render| <= p.total
            && Placed(microphone, p.microphone, p.total)[at] == microphone[x - m]
            && Placed(render, p.render, p.total)[at] == render[x - r]
  {
    var p := Plan(|microphone|, |render|, base + SampleOffset(m), base + SampleOffset(r));
    PlanIsTight(|microphone|, |render|, base + SampleOffset(m), base + SampleOffset(r));
    PlanIsExact(|microphone|, |render|, base, m, r);
    hide Plan, Placed, SampleOffset;
    PlacedAt(microphone, p.microphone, p.total, x - m);
    PlacedAt(render, p.render, p.total, x - r);
  }

  method CopyTrack(track: seq<real>, offset: nat, total: nat) returns (aligned: array<real>)
    requires offset + |track| <= total
    ensures fresh(aligned) && aligned[..] == Placed(track, offset, total)
  {
    aligned := new real[total](_ => 0.0);
    for i := 0 to |track|
      invariant forall k :: 0 <= k < total ==>
        aligned[k] == if offset <= k < offset + i then track[k - offset] else 0.0
    {
      aligned[offset + i] := track[i];
    }
  }

  method AlignTracks(microphone: seq<real>, render: seq<real>, microphoneQpc: nat, renderQpc: nat)
    returns (alignedMicrophone: array<real>, alignedRender: array<real>, offsets: (nat, nat), startMs: real)
    ensures var p := Plan(|microphone|, |render|, microphoneQpc, renderQpc);
            && p.microphone + |microphone| <= p.total && p.render + |render| <= p.total
            && offsets == (p.microphone, p.render)
            && alignedMicrophone[..] == Placed(microphone, p.microphone, p.total)
            && alignedRender[..] == Placed(render, p.render, p.total)
    ensures startMs == (microphoneQpc - renderQpc) as real / 10_000.0
  {
    var origin := Min(microphoneQpc, renderQpc);
    var microphoneOffset := TicksToSamples(microphoneQpc - origin);
    var renderOffset := TicksToSamples(renderQpc - origin);
    PlanIsTight(|microphone|, |render|, microphoneQpc, renderQpc);
    var needed := Max(microphoneOffset + |microphone|, renderOffset + |render|);
    var common := (needed + FRAME_SAMPLES - 1) / FRAME_SAMPLES * FRAME_SAMPLES;
    alignedMicrophone := CopyTrack(microphone, microphoneOffset, common);
    alignedRender := CopyTrack(render, renderOffset, common);
    offsets := (microphoneOffset, renderOffset);
    SignedDeltaMsIsExact(microphoneQpc, renderQpc);
    startMs := SignedDeltaMs(microphoneQpc, renderQpc);
  }
}
