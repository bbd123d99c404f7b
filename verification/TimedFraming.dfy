/** The time-stamping accumulator of crates/mini-aec-engine/src/synchronization.rs. */
module TimedFraming {
  import opened AudioTypes
  import Framing

  const QPC_TICKS_PER_SECOND: nat := 10_000_000
  const SAMPLE_RATE_HZ: nat := 48_000
  const FRAME_DURATION_100NS: nat := 100_000

  /** The duration of a number of samples, in ticks rounded to nearest. */
  function SampleOffset(samples: nat): nat {
    (samples * QPC_TICKS_PER_SECOND + SAMPLE_RATE_HZ / 2) / SAMPLE_RATE_HZ
  }

  lemma SampleOffsetThirds(q: nat, r: nat)
    requires r < 3
    ensures SampleOffset(3 * q + r) == 625 * q + [0, 208, 417][r]
  {
  }

  /** Rounding errors cancel wherever two spans meet on a multiple of three samples. */
  lemma OffsetsCancel(a: nat, b: nat)
    requires (a + b) % 3 == 0
    ensures SampleOffset(a) + SampleOffset(b) == SampleOffset(a + b)
    ensures SampleOffset(a + b) == (a + b) / 3 * 625
  {
    SampleOffsetThirds(a / 3, a % 3);
    SampleOffsetThirds(b / 3, b % 3);
    SampleOffsetThirds((a + b) / 3, 0);
  }

  datatype TimedFrame = TimedFrame(samples: seq<real>, qpc: nat, position: nat, reset: bool)

  /** The accumulator between packets; the stamps mean nothing while nothing is pending. */
  datatype Accumulator = Accumulator(pending: seq<real>, qpc: nat, position: nat, reset: bool)

  const FRESH := Accumulator([], 0, 0, false)

  datatype Fed = Fed(frames: seq<TimedFrame>, state: Accumulator)

  function Sanitize(s: Sample): real {
    if s.Finite? then ClampReal(s.value, -1.0, 1.0) else 0.0
  }

  predicate IsInvalid(s: Sample) { s.NonFinite? || !(-1.0 <= s.value <= 1.0) }

  function Values(p: Packet): seq<real> { Map(Sanitize, Effective(p)) }

  function Carried(acc: Accumulator, p: Packet): seq<real> {
    if p.metadata.Flagged() then [] else acc.pending
  }

  /** Tick and device position of the first sample of the k-th frame open during a packet. */
  function Stamp(acc: Accumulator, p: Packet, k: nat): (nat, nat) {
    var carried := Carried(acc, p);
    if k == 0 && carried != [] then (acc.qpc, acc.position) else
    var offset := SaturatingSub(FRAME_SAMPLES * k, |carried|);
    (SaturatingAdd(p.metadata.qpcTimestamp, SampleOffset(offset)),
     SaturatingAdd(p.metadata.devicePosition, offset))
  }

  function StampedFrame(acc: Accumulator, p: Packet, chunk: seq<real>, k: nat): TimedFrame {
    TimedFrame(chunk, Stamp(acc, p, k).0, Stamp(acc, p, k).1, k == 0 && (acc.reset || p.metadata.Flagged()))
  }

  /** The effect of the samples `values` of a packet: whole chunks leave, stamped at their start. */
  function FeedValues(acc: Accumulator, p: Packet, values: seq<real>): Fed {
    var stream := Carried(acc, p) + values;
    var chunks, rest := Chunks(stream), Rest(stream);
    var (qpc, position) := if rest == [] then (0, 0) else Stamp(acc, p, |chunks|);
    Fed(seq(|chunks|, k requires 0 <= k < |chunks| => StampedFrame(acc, p, chunks[k], k)),
        Accumulator(rest, qpc, position, chunks == [] && (acc.reset || p.metadata.Flagged())))
  }

  function Feed(acc: Accumulator, p: Packet): Fed { FeedValues(acc, p, Values(p)) }

  /** One more sample, `offset` samples into the packet described by `m`. */
  function PushValue(acc: Accumulator, m: PacketMetadata, offset: nat, value: real): Fed {
    var grown := acc.pending + [value];
    var (qpc, position) :=
      if acc.pending != [] then (acc.qpc, acc.position)
      else (SaturatingAdd(m.qpcTimestamp, SampleOffset(offset)), SaturatingAdd(m.devicePosition, offset));
    if |grown| < FRAME_SAMPLES then Fed([], Accumulator(grown, qpc, position, acc.reset))
    else Fed([TimedFrame(grown, qpc, position, acc.reset)], FRESH)
  }

  lemma FeedPush(acc: Accumulator, p: Packet, i: nat)
    requires i < |Values(p)| && |acc.pending| < FRAME_SAMPLES
    ensures var before, after := FeedValues(acc, p, Values(p)[..i]), FeedValues(acc, p, Values(p)[..i + 1]);
            var step := PushValue(before.state, p.metadata, i, Values(p)[i]);
            after.frames == before.frames + step.frames && after.state == step.state
  {
    var start := Carried(acc, p);
    ChunksPush(start, Values(p), i);
    var k := |Chunks(start + Values(p)[..i])|;
    assert FRAME_SAMPLES * k + |Rest(start + Values(p)[..i])| == |start| + i;
  }

  datatype Ran = Ran(frames: seq<TimedFrame>, origins: seq<nat>, state: Accumulator)

  function Extend(before: Ran, p: Packet, n: nat): Ran {
    var step := Feed(before.state, p);
    Ran(before.frames + step.frames, before.origins + seq(|step.frames|, _ => n), step.state)
  }

  /** All frames emitted for a packet list, each with the index of the packet that completed it. */
  function Run(acc: Accumulator, packets: seq<Packet>): (r: Ran)
    ensures |r.frames| == |r.origins|
    ensures |acc.pending| < FRAME_SAMPLES ==> |r.state.pending| < FRAME_SAMPLES
  {
    if packets == [] then Ran([], [], acc) else
    var n := |packets| - 1;
    Extend(Run(acc, packets[..n]), packets[n], n)
  }

  function FrameToPcm(f: TimedFrame): seq<int> { Map(ToPcm, f.samples) }

  lemma SanitizeThenConvert(s: Sample)
    ensures Framing.Pcm16(Finite(Sanitize(s))).0 == Framing.Pcm16(s).0
    ensures IsInvalid(s) == Framing.NeedsSanitizing(s)
  {
  }

  function ToPcm(v: real): int { Framing.Pcm16(Finite(v)).0 }

  lemma FeedRefinesBypass(acc: Accumulator, p: Packet)
    ensures var timed, plain := Feed(acc, p), Framing.Feed(Map(ToPcm, acc.pending), Framing.PcmBlock(p));
            Map(FrameToPcm, timed.frames) == plain.frames && Map(ToPcm, timed.state.pending) == plain.pending
  {
    var stream := Carried(acc, p) + Values(p);
    var pcm := Framing.PcmBlock(p).samples;
    var pending := if p.metadata.Flagged() then [] else Map(ToPcm, acc.pending);
    forall i | 0 <= i < |pcm| ensures pcm[i] == ToPcm(Values(p)[i]) {
      SanitizeThenConvert(Effective(p)[i]);
    }
    assert Map(ToPcm, stream) == pending + pcm;
    MapChunks(ToPcm, stream);
    forall k | 0 <= k < |Chunks(stream)|
      ensures Map(FrameToPcm, Feed(acc, p).frames)[k] == Chunks(pending + pcm)[k]
    {
      assert Map(FrameToPcm, Feed(acc, p).frames)[k] == Map(ToPcm, Chunks(stream)[k]);
    }
  }

  ghost predicate SamePcm(timed: Ran, plain: Framing.Framed<int>) {
    Map(FrameToPcm, timed.frames) == plain.frames && Map(ToPcm, timed.state.pending) == plain.pending
  }

  lemma RefinementStep(before: Ran, plain: Framing.Framed<int>, p: Packet, n: nat)
    requires SamePcm(before, plain)
    ensures var step := Framing.Feed(plain.pending, Framing.PcmBlock(p));
            SamePcm(Extend(before, p, n), Framing.Framed(plain.frames + step.frames, step.pending))
  {
    FeedRefinesBypass(before.state, p);
    MapAppend(FrameToPcm, before.frames, Feed(before.state, p).frames);
    hide Feed, Map, FrameToPcm, Framing.Feed, Framing.PcmBlock;
  }

  /** Converting the frames of the timed accumulator to PCM gives the bypass frames, exactly. */
  lemma {:induction false} TimedRefinesBypass(packets: seq<Packet>)
    ensures var timed, plain := Run(FRESH, packets), Framing.Run(Framing.PcmBlocks(packets));
            Map(FrameToPcm, timed.frames) == plain.frames && Map(ToPcm, timed.state.pending) == plain.pending
  {
    if packets != [] {
      var n := |packets| - 1;
      TimedRefinesBypass(packets[..n]);
      assert Framing.PcmBlocks(packets) == Framing.PcmBlocks(packets[..n]) + [Framing.PcmBlock(packets[n])];
      Framing.RunSnoc(Framing.PcmBlocks(packets[..n]), Framing.PcmBlock(packets[n]));
      RefinementStep(Run(FRESH, packets[..n]), Framing.Run(Framing.PcmBlocks(packets[..n])), packets[n], n);
    }
    hide Feed, Extend, Framing.Run, Framing.Feed, Framing.PcmBlock, Framing.PcmBlocks, FrameToPcm, ToPcm;
  }

  /** Both accumulators report the same number of sanitised samples. */
  lemma {:induction false} SameSanitizedCount(samples: seq<Sample>)
    ensures Count(IsInvalid, samples) == Count(Framing.NeedsSanitizing, samples)
  {
    if samples != [] {
      SameSanitizedCount(samples[..|samples| - 1]);
      SanitizeThenConvert(samples[|samples| - 1]);
    }
  }

  function Total(packets: seq<Packet>): nat {
    if packets == [] then 0 else Total(packets[..|packets| - 1]) + |Effective(packets[|packets| - 1])|
  }

  /** Packets of one uninterrupted stretch, each stamped with the rounded offset of its first sample. */
  ghost predicate OnTimeline(packets: seq<Packet>, base: nat, position: nat) {
    forall i :: 0 <= i < |packets| ==>
      && (0 < i ==> !packets[i].metadata.Flagged())
      && packets[i].metadata.qpcTimestamp == SaturatingAdd(base, SampleOffset(Total(packets[..i])))
      && packets[i].metadata.devicePosition == SaturatingAdd(position, Total(packets[..i]))
  }

  function ExactStamp(base: nat, position: nat, k: nat): (nat, nat) {
    (SaturatingAdd(base, FRAME_DURATION_100NS * k), SaturatingAdd(position, FRAME_SAMPLES * k))
  }

  function StampOf(f: TimedFrame): (nat, nat) { (f.qpc, f.position) }

  /** The accumulator is `total` samples into its stretch, of which `first` whole frames have left. */
  ghost predicate Aligned(acc: Accumulator, p: Packet, base: nat, position: nat, first: nat, total: nat) {
    && total == FRAME_SAMPLES * first + |Carried(acc, p)|
    && |Carried(acc, p)| < FRAME_SAMPLES
    && (Carried(acc, p) != [] ==> (acc.qpc, acc.position) == ExactStamp(base, position, first))
    && p.metadata.qpcTimestamp == SaturatingAdd(base, SampleOffset(total))
    && p.metadata.devicePosition == SaturatingAdd(position, total)
  }

  lemma StampOnTimeline(acc: Accumulator, p: Packet, base: nat, position: nat, first: nat, total: nat, k: nat)
    requires Aligned(acc, p, base, position, first, total)
    ensures Stamp(acc, p, k) == ExactStamp(base, position, first + k)
  {
    if k > 0 || Carried(acc, p) == [] {
      var offset := FRAME_SAMPLES * k - |Carried(acc, p)|;
      assert total + offset == 3 * (160 * (first + k));
      OffsetsCancel(total, offset);
    }
  }

  ghost predicate ExactFrom(frames: seq<TimedFrame>, base: nat, position: nat, first: nat) {
    forall k :: 0 <= k < |frames| ==> StampOf(frames[k]) == ExactStamp(base, position, first + k)
  }

  lemma ExactAppend(a: seq<TimedFrame>, b: seq<TimedFrame>, base: nat, position: nat)
    requires ExactFrom(a, base, position, 0) && ExactFrom(b, base, position, |a|)
    ensures ExactFrom(a + b, base, position, 0)
  {
    forall k | 0 <= k < |a + b| ensures StampOf((a + b)[k]) == ExactStamp(base, position, k) {
      if |a| <= k {
        assert (a + b)[k] == b[k - |a|];
      }
    }
  }

  lemma OnTimelinePrefix(packets: seq<Packet>, base: nat, position: nat)
    requires packets != [] && OnTimeline(packets, base, position)
    ensures OnTimeline(packets[..|packets| - 1], base, position)
  {
    var init := packets[..|packets| - 1];
    forall i | 0 <= i < |init| ensures init[..i] == packets[..i] && init[i] == packets[i] {}
  }

  lemma FeedOnTimeline(acc: Accumulator, p: Packet, base: nat, position: nat, first: nat, total: nat)
    requires Aligned(acc, p, base, position, first, total)
    ensures var step := Feed(acc, p);
            && FRAME_SAMPLES * (first + |step.frames|) + |step.state.pending| == total + |Effective(p)|
            && ExactFrom(step.frames, base, position, first)
            && (step.state.pending != [] ==>
                  (step.state.qpc, step.state.position) == ExactStamp(base, position, first + |step.frames|))
  {
    forall k: nat ensures Stamp(acc, p, k) == ExactStamp(base, position, first + k) {
      StampOnTimeline(acc, p, base, position, first, total, k);
    }
  }

  /** After `total` samples of a stretch: all frames exact, and so is the partial one. */
  ghost predicate ExactRun(r: Ran, total: nat, base: nat, position: nat) {
    && FRAME_SAMPLES * |r.frames| + |r.state.pending| == total
    && |r.state.pending| < FRAME_SAMPLES
    && ExactFrom(r.frames, base, position, 0)
    && (r.state.pending != [] ==> (r.state.qpc, r.state.position) == ExactStamp(base, position, |r.frames|))
  }

  lemma ExactStep(before: Ran, p: Packet, n: nat, base: nat, position: nat, total: nat)
    requires if p.metadata.Flagged() then total == 0 && before.frames == [] else ExactRun(before, total, base, position)
    requires p.metadata.qpcTimestamp == SaturatingAdd(base, SampleOffset(total))
    requires p.metadata.devicePosition == SaturatingAdd(position, total)
    ensures ExactRun(Extend(before, p, n), total + |Effective(p)|, base, position)
  {
    FeedOnTimeline(before.state, p, base, position, |before.frames|, total);
    ExactAppend(before.frames, Feed(before.state, p).frames, base, position);
  }

  /**
   * However a stretch is cut into packets, frame k starts exactly 100,000 k ticks and 480 k samples
   * after its first sample: no rounding error is ever visible and none accumulates.
   */
  lemma {:induction false} ExactTimeline(acc: Accumulator, packets: seq<Packet>, base: nat, position: nat)
    requires |acc.pending| < FRAME_SAMPLES
    requires acc.pending == [] || (packets != [] && packets[0].metadata.Flagged())
    requires OnTimeline(packets, base, position)
    ensures ExactRun(Run(acc, packets), Total(packets), base, position)
  {
    if packets != [] {
      var n := |packets| - 1;
      var init := packets[..n];
      OnTimelinePrefix(packets, base, position);
      if n > 0 {
        ExactTimeline(acc, init, base, position);
      }
      ExactStep(Run(acc, init), packets[n], n, base, position, Total(init));
    }
  }

  predicate IsFlagged(p: Packet) { p.metadata.dataDiscontinuity || p.metadata.timestampError }

  ghost predicate FlaggedWithin(packets: seq<Packet>, after: int, upTo: int) {
    exists i :: after < i <= upTo && 0 <= i < |packets| && IsFlagged(packets[i])
  }

  function PreviousOrigin(origins: seq<nat>, j: nat): int
    requires j <= |origins|
  {
    if j == 0 then -1 else origins[j - 1]
  }

  lemma FlaggedWithinAppend(packets: seq<Packet>, p: Packet, after: int, upTo: int)
    requires upTo <= |packets|
    ensures FlaggedWithin(packets + [p], after, upTo)
        <==> (FlaggedWithin(packets, after, Min(upTo, |packets| - 1))
              || (after < upTo == |packets| && p.metadata.Flagged()))
  {
    var all := packets + [p];
    assert all[|packets|] == p;
    if i :| after < i <= upTo && 0 <= i < |all| && all[i].metadata.Flagged() {
      assert i < |packets| ==> all[i] == packets[i];
    }
    if i :| after < i <= upTo && 0 <= i < |packets| && packets[i].metadata.Flagged() {
      assert all[i] == packets[i];
    }
  }

  ghost predicate ResetsExact(packets: seq<Packet>, r: Ran)
    requires |r.frames| == |r.origins|
  {
    && (forall j :: 0 <= j < |r.frames| ==> r.origins[j] < |packets|)
    && (forall j :: 0 <= j < |r.frames| ==>
          (r.frames[j].reset <==> FlaggedWithin(packets, PreviousOrigin(r.origins, j), r.origins[j])))
    && (r.state.reset <==> FlaggedWithin(packets, PreviousOrigin(r.origins, |r.origins|), |packets| - 1))
  }

  lemma ResetsExactStep(packets: seq<Packet>, p: Packet, before: Ran)
    requires |before.frames| == |before.origins| && ResetsExact(packets, before)
    ensures ResetsExact(packets + [p], Extend(before, p, |packets|))
  {
    var n, f, after := |packets|, |before.frames|, Extend(before, p, |packets|);
    forall j | 0 <= j < f
      ensures after.frames[j].reset
          <==> FlaggedWithin(packets + [p], PreviousOrigin(after.origins, j), after.origins[j])
    {
      assert after.frames[j] == before.frames[j] && after.origins[j] == before.origins[j];
      assert PreviousOrigin(after.origins, j) == PreviousOrigin(before.origins, j);
      FlaggedWithinAppend(packets, p, PreviousOrigin(before.origins, j), before.origins[j]);
    }
    NewResetsExact(packets, p, before);
  }

  lemma NewResetsExact(packets: seq<Packet>, p: Packet, before: Ran)
    requires |before.frames| == |before.origins| && ResetsExact(packets, before)
    ensures var f, after := |before.frames|, Extend(before, p, |packets|);
      && (forall j :: f <= j < |after.frames| ==>
            && after.origins[j] == |packets|
            && (after.frames[j].reset
                <==> FlaggedWithin(packets + [p], PreviousOrigin(after.origins, j), after.origins[j])))
      && (after.state.reset
          <==> FlaggedWithin(packets + [p], PreviousOrigin(after.origins, |after.origins|), |packets|))
  {
    var n, f, after := |packets|, |before.frames|, Extend(before, p, |packets|);
    var open := PreviousOrigin(before.origins, f);
    FlaggedWithinAppend(packets, p, open, n);
    FlaggedWithinAppend(packets, p, n, n);
    assert before.state.reset || p.metadata.Flagged() <==> FlaggedWithin(packets + [p], open, n);
    forall j | f <= j <= |after.frames| ensures PreviousOrigin(after.origins, j) == if j == f then open else n {}
  }

  /** A frame starts a new epoch exactly when a flagged packet arrived since the frame before it. */
  lemma {:induction false} ResetExactlyAfterFlag(packets: seq<Packet>)
    ensures ResetsExact(packets, Run(FRESH, packets))
  {
    if packets != [] {
      var init, p := packets[..|packets| - 1], packets[|packets| - 1];
      assert packets == init + [p];
      ResetExactlyAfterFlag(init);
      var before := Run(FRESH, init);
      ResetsExactStep(init, p, before);
    }
  }

  // ---- Where the samples and stamps of a frame come from ----

  /** The value kept of a sample: clamped to full scale, and silence for what is not a number. */
  function Clean(s: Sample): real {
    match s
    case NonFinite => 0.0
    case Finite(x) => if x > 1.0 then 1.0 else if x < -1.0 then -1.0 else x
  }

  function CleanAt(packets: seq<Packet>): Framing.Origin -> real {
    (o: Framing.Origin) => Clean(Framing.Heard(packets, o))
  }

  /** The stamps of a sample: those of its packet, moved on by its place in it, within 64 bits. */
  function StampAt(packets: seq<Packet>, o: Framing.Origin): (nat, nat) {
    if o.packet >= |packets| then (0, 0) else
    var m := packets[o.packet].metadata;
    (Min(m.qpcTimestamp + SampleOffset(o.sample), 0xFFFF_FFFF_FFFF_FFFF),
     Min(m.devicePosition + o.sample, 0xFFFF_FFFF_FFFF_FFFF))
  }

  /** A timed frame holds what is heard at its origins, stamped by the first of them. */
  ghost predicate Stems(packets: seq<Packet>, f: TimedFrame, origins: seq<Framing.Origin>) {
    && f.samples == Map(CleanAt(packets), origins)
    && (origins != [] ==> (f.qpc, f.position) == StampAt(packets, origins[0]))
  }

  ghost predicate AllStem(packets: seq<Packet>, frames: seq<TimedFrame>, origins: seq<seq<Framing.Origin>>) {
    |frames| == |origins| && forall k :: 0 <= k < |frames| ==> Stems(packets, frames[k], origins[k])
  }

  ghost predicate PendingStems(packets: seq<Packet>, acc: Accumulator, origins: seq<Framing.Origin>) {
    && acc.pending == Map(CleanAt(packets), origins)
    && (origins != [] ==> (acc.qpc, acc.position) == StampAt(packets, origins[0]))
  }

  lemma ValuesStem(packets: seq<Packet>, n: nat)
    requires n < |packets|
    ensures Values(packets[n]) == Map(CleanAt(packets), Framing.OriginBlock(packets[n], n).samples)
    ensures Framing.OriginBlock(packets[n], n).flagged == packets[n].metadata.Flagged()
  {
  }

  /** The stream of origins that packet `n` completes. */
  function Stream(packets: seq<Packet>, n: nat, pending: seq<Framing.Origin>): seq<Framing.Origin>
    requires n < |packets|
  {
    var b := Framing.OriginBlock(packets[n], n);
    (if b.flagged then [] else pending) + b.samples
  }

  lemma StreamStems(packets: seq<Packet>, n: nat, acc: Accumulator, pending: seq<Framing.Origin>)
    requires n < |packets| && PendingStems(packets, acc, pending)
    ensures Carried(acc, packets[n]) + Values(packets[n]) == Map(CleanAt(packets), Stream(packets, n, pending))
    ensures |Carried(acc, packets[n])| == |Stream(packets, n, pending)| - |Framing.OriginBlock(packets[n], n).samples|
  {
    var b := Framing.OriginBlock(packets[n], n);
    ValuesStem(packets, n);
    MapAppend(CleanAt(packets), if b.flagged then [] else pending, b.samples);
    assert Map(CleanAt(packets), []) == [];
    hide Values, CleanAt, Framing.OriginBlock;
  }

  /** The first sample of the k-th frame open during a packet carries that frame's stamps. */
  lemma StampStems(packets: seq<Packet>, n: nat, acc: Accumulator, pending: seq<Framing.Origin>, k: nat)
    requires n < |packets| && PendingStems(packets, acc, pending) && |pending| < FRAME_SAMPLES
    requires FRAME_SAMPLES * k < |Stream(packets, n, pending)|
    ensures Stamp(acc, packets[n], k) == StampAt(packets, Stream(packets, n, pending)[FRAME_SAMPLES * k])
  {
    var b := Framing.OriginBlock(packets[n], n);
    var carried := if b.flagged then [] else pending;
    assert |Carried(acc, packets[n])| == |carried|;
    if k == 0 && carried != [] {
      assert Stream(packets, n, pending)[0] == pending[0];
    } else {
      var i := FRAME_SAMPLES * k - |carried|;
      assert Stream(packets, n, pending)[FRAME_SAMPLES * k] == b.samples[i] == Framing.Origin(n, i);
    }
    hide CleanAt, SampleOffset;
  }

  lemma FeedStems(packets: seq<Packet>, n: nat, acc: Accumulator, pending: seq<Framing.Origin>)
    requires n < |packets| && PendingStems(packets, acc, pending) && |pending| < FRAME_SAMPLES
    ensures var fed, plain := Feed(acc, packets[n]), Framing.Feed(pending, Framing.OriginBlock(packets[n], n));
            AllStem(packets, fed.frames, plain.frames) && PendingStems(packets, fed.state, plain.pending)
  {
    var stream := Stream(packets, n, pending);
    var fed := Feed(acc, packets[n]);
    StreamStems(packets, n, acc, pending);
    MapChunks(CleanAt(packets), stream);
    hide Values, Carried, CleanAt, Stamp, StampAt, Stream;
    forall k | 0 <= k < |Chunks(stream)| ensures Stems(packets, fed.frames[k], Chunks(stream)[k]) {
      StampStems(packets, n, acc, pending, k);
      assert Chunks(stream)[k][0] == stream[FRAME_SAMPLES * k];
    }
    if Rest(stream) != [] {
      StampStems(packets, n, acc, pending, |Chunks(stream)|);
      assert Rest(stream)[0] == stream[FRAME_SAMPLES * |Chunks(stream)|];
    }
    StreamIs(packets, n, pending);
    hide Chunks, Rest, Stems;
  }

  lemma StreamIs(packets: seq<Packet>, n: nat, pending: seq<Framing.Origin>)
    requires n < |packets|
    ensures var plain, stream := Framing.Feed(pending, Framing.OriginBlock(packets[n], n)), Stream(packets, n, pending);
            plain.frames == Chunks(stream) && plain.pending == Rest(stream)
  {
    hide Chunks, Rest;
  }

  lemma {:induction false} StemsUpTo(packets: seq<Packet>, n: nat)
    requires n <= |packets|
    ensures var timed, plain := Run(FRESH, packets[..n]), Framing.Run(Framing.OriginBlocks(packets)[..n]);
            && AllStem(packets, timed.frames, plain.frames) && PendingStems(packets, timed.state, plain.pending)
            && |plain.pending| < FRAME_SAMPLES
  {
    var blocks := Framing.OriginBlocks(packets);
    if n == 0 {
      assert packets[..0] == [] && blocks[..0] == [] && Map(CleanAt(packets), []) == [];
    } else {
      var m := n - 1;
      StemsUpTo(packets, m);
      assert packets[..n][..m] == packets[..m] && blocks[..n][..m] == blocks[..m];
      FeedStems(packets, m, Run(FRESH, packets[..m]).state, Framing.Run(blocks[..m]).pending);
      hide AllStem, PendingStems, Feed;
      AllStemAppend(packets, Run(FRESH, packets[..m]).frames, Framing.Run(blocks[..m]).frames,
                    Feed(Run(FRESH, packets[..m]).state, packets[m]).frames,
                    Framing.Feed(Framing.Run(blocks[..m]).pending, blocks[m]).frames);
    }
    hide AllStem, PendingStems, Feed;
  }

  lemma AllStemAppend(
      packets: seq<Packet>, a: seq<TimedFrame>, a': seq<seq<Framing.Origin>>,
      b: seq<TimedFrame>, b': seq<seq<Framing.Origin>>)
    requires AllStem(packets, a, a') && AllStem(packets, b, b')
    ensures AllStem(packets, a + b, a' + b')
  {
    hide Stems;
  }

  /**
   * Whatever the packets: every sample of every frame, and of the partial frame, is what is heard at one place
   * of one packet, clamped to full scale, and a frame is stamped for its first sample. Which places these are
   * follows from the packets' lengths and flags alone.
   */
  lemma FramesStem(packets: seq<Packet>)
    ensures var timed, origins := Run(FRESH, packets), Framing.Run(Framing.OriginBlocks(packets));
            AllStem(packets, timed.frames, origins.frames) && PendingStems(packets, timed.state, origins.pending)
  {
    StemsUpTo(packets, |packets|);
    assert packets[..|packets|] == packets;
    assert Framing.OriginBlocks(packets)[..|packets|] == Framing.OriginBlocks(packets);
    hide Run, AllStem, PendingStems, Framing.Run;
  }

  class TimedFrameAccumulator {
    const samples: array<real>
    var len: nat
    var frameQpc: nat
    var framePosition: nat
    var resetEpoch: bool

    ghost predicate Valid()
      reads this, samples
    {
      samples.Length == FRAME_SAMPLES && len < FRAME_SAMPLES
    }

    ghost function State(): Accumulator
      reads this, samples
      requires Valid()
    {
      Accumulator(samples[..len], if len == 0 then 0 else frameQpc, if len == 0 then 0 else framePosition, resetEpoch)
    }

    constructor ()
      ensures Valid() && fresh(samples) && State() == FRESH
    {
      samples := new real[FRAME_SAMPLES](_ => 0.0);
      len, frameQpc, framePosition, resetEpoch := 0, 0, 0, false;
    }

    method Clear()
      requires Valid()
      modifies this, samples
      ensures Valid() && State() == FRESH
    {
      forall i | 0 <= i < samples.Length { samples[i] := 0.0; }
      len, resetEpoch := 0, false;
    }

    /** Stores one sanitised sample; a completed frame leaves with the stamps of its first sample. */
    method PushSample(value: real, offset: nat, metadata: PacketMetadata) returns (full: seq<TimedFrame>)
      requires Valid()
      modifies this, samples
      ensures Valid()
      ensures Fed(full, State()) == PushValue(old(State()), metadata, offset, value)
    {
      if len == 0 {
        frameQpc := SaturatingAdd(metadata.qpcTimestamp, SampleOffset(offset));
        framePosition := SaturatingAdd(metadata.devicePosition, offset);
      }
      samples[len] := value;
      len := len + 1;
      assert samples[..len] == old(samples[..len]) + [value];
      full := [];
      if len == FRAME_SAMPLES {
        assert samples[..] == samples[..len];
        full := [TimedFrame(samples[..], frameQpc, framePosition, resetEpoch)];
        forall i | 0 <= i < samples.Length { samples[i] := 0.0; }
        len := 0;
        resetEpoch := false;
      }
    }

    method PushPacket(packet: Packet) returns (emitted: seq<TimedFrame>, sanitized: nat)
      requires Valid()
      modifies this, samples
      ensures Valid()
      ensures Fed(emitted, State()) == Feed(old(State()), packet)
      ensures sanitized == Count(IsInvalid, Effective(packet))
    {
      hide FeedValues, Count, PushValue, Values, Effective, Sanitize, Pushed;
      ghost var acc := State();
      if packet.metadata.Flagged() {
        Clear();
        resetEpoch := true;
      }
      emitted, sanitized := [], 0;
      var take := Min(|packet.samples|, packet.metadata.frames);
      NothingPushed(acc, packet);
      for i := 0 to take
        invariant Valid()
        invariant Pushed(acc, packet, i) == (Fed(emitted, State()), sanitized)
      {
        var sample := if packet.metadata.silent then Finite(0.0) else packet.samples[i];
        PushStep(acc, packet, i);
        sanitized := sanitized + if sample.NonFinite? || !(-1.0 <= sample.value <= 1.0) then 1 else 0;
        var full := PushSample(Sanitize(sample), i, packet.metadata);
        emitted := emitted + full;
      }
      AllPushed(acc, packet);
    }
  }

  /** What the first `i` samples of a packet make of the accumulator, and how many of them were sanitised. */
  function Pushed(acc: Accumulator, p: Packet, i: nat): (Fed, nat)
    requires i <= Min(|p.samples|, p.metadata.frames)
  {
    (FeedValues(acc, p, Values(p)[..i]), Count(IsInvalid, Effective(p)[..i]))
  }

  /** The accumulator at the start of a packet, which a flag has emptied and marked. */
  lemma NothingPushed(acc: Accumulator, p: Packet)
    requires |acc.pending| < FRAME_SAMPLES && (acc.pending == [] ==> acc.qpc == 0 && acc.position == 0)
    ensures Pushed(acc, p, 0)
         == (Fed([], if p.metadata.Flagged() then FRESH.(reset := true) else acc), 0)
  {
    var stream := Carried(acc, p) + Values(p)[..0];
    assert stream == Carried(acc, p);
    NoChunks(stream);
    hide Chunks, Rest, Values;
    assert FeedValues(acc, p, Values(p)[..0]).frames == [];
    assert Count(IsInvalid, Effective(p)[..0]) == 0;
  }

  lemma AllPushed(acc: Accumulator, p: Packet)
    ensures Pushed(acc, p, |Effective(p)|) == (Feed(acc, p), Count(IsInvalid, Effective(p)))
  {
    assert Values(p)[..|Effective(p)|] == Values(p) && Effective(p)[..|Effective(p)|] == Effective(p);
    hide FeedValues, Count;
  }

  lemma PushStep(acc: Accumulator, p: Packet, i: nat)
    requires i < Min(|p.samples|, p.metadata.frames) && |acc.pending| < FRAME_SAMPLES
    ensures var sample := if p.metadata.silent then Finite(0.0) else p.samples[i];
            var (before, count) := Pushed(acc, p, i);
            var step := PushValue(before.state, p.metadata, i, Sanitize(sample));
            Pushed(acc, p, i + 1)
            == (Fed(before.frames + step.frames, step.state), count + if IsInvalid(sample) then 1 else 0)
  {
    hide FeedValues, Count, PushValue, Sanitize, IsInvalid;
    FeedPush(acc, p, i);
    CountPush(IsInvalid, Effective(p), i);
  }
}
