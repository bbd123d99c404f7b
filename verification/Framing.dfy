/** crates/mini-aec-engine/src/framing.rs: PCM16 conversion and the bypass frame accumulator. */
module Framing {
  import opened AudioTypes

  /** One converted sample and whether it had to be sanitised. */
  function Pcm16(sample: Sample): (r: (int, bool))
    ensures I16_MIN <= r.0 <= I16_MAX
  {
    match sample
    case NonFinite => (0, true)
    case Finite(v) =>
      var clamped := ClampReal(v, -1.0, 1.0);
      (if clamped >= 0.0 then Round(clamped * 32767.0) else Round(clamped * 32768.0),
       !(-1.0 <= v <= 1.0))
  }

  /**
   * What a sample converts to: nothing but a finite value within full scale goes unflagged; the result is
   * the nearest value on the scale of its sign, halves away from zero, and the limit beyond full scale.
   */
  lemma Pcm16IsNearest(sample: Sample)
    ensures var (value, changed) := Pcm16(sample);
            match sample
            case NonFinite => value == 0 && changed
            case Finite(x) =>
              && (changed <==> x < -1.0 || x > 1.0)
              && (x > 1.0 ==> value == I16_MAX) && (x < -1.0 ==> value == I16_MIN)
              && (0.0 <= x <= 1.0 ==> x * 32767.0 - 0.5 < value as real <= x * 32767.0 + 0.5)
              && (-1.0 <= x < 0.0 ==> x * 32768.0 - 0.5 <= value as real < x * 32768.0 + 0.5)
  {
  }

  /** Every PCM16 value survives the trip through the float it denotes, unchanged and unflagged. */
  lemma Pcm16RoundTrip(v: int)
    requires I16_MIN <= v <= I16_MAX
    ensures v >= 0 ==> Pcm16(Finite(v as real / 32767.0)) == (v, false)
    ensures v < 0 ==> Pcm16(Finite(v as real / 32768.0)) == (v, false)
  {
    if v >= 0 {
      assert v as real / 32767.0 * 32767.0 == v as real;
    } else {
      assert v as real / 32768.0 * 32768.0 == v as real;
    }
  }

  /** Conversion keeps order, so clipping and the asymmetric scales cannot fold the waveform. */
  lemma Pcm16Monotone(a: real, b: real)
    requires a <= b
    ensures Pcm16(Finite(a)).0 <= Pcm16(Finite(b)).0
  {
    assert ClampReal(a, -1.0, 1.0) <= ClampReal(b, -1.0, 1.0);
  }

  /** A packet as the accumulator sees it: does it cut the stream, and which samples it adds. */
  datatype Block<T> = Block(flagged: bool, samples: seq<T>)

  datatype Framed<T> = Framed(frames: seq<seq<T>>, pending: seq<T>)

  function ToPcm(s: Sample): int { Pcm16(s).0 }

  predicate NeedsSanitizing(s: Sample) { Pcm16(s).1 }

  function PcmBlock(p: Packet): Block<int> {
    Block(p.metadata.Flagged(), Map(ToPcm, Effective(p)))
  }

  function PcmBlocks(packets: seq<Packet>): (r: seq<Block<int>>)
    ensures |r| == |packets|
  {
    Map(PcmBlock, packets)
  }

  function Sanitized(p: Packet): nat { Count(NeedsSanitizing, Effective(p)) }

  /** What one packet does: a flagged one forgets the partial frame, then whole chunks leave. */
  function Feed<T>(pending: seq<T>, b: Block<T>): Framed<T> {
    var stream := (if b.flagged then [] else pending) + b.samples;
    Framed(Chunks(stream), Rest(stream))
  }

  /** Every frame a fresh accumulator emits for a packet list, and the partial frame it ends with. */
  function Run<T>(blocks: seq<Block<T>>): Framed<T> {
    if blocks == [] then Framed([], []) else
    var before := Run(blocks[..|blocks| - 1]);
    var step := Feed(before.pending, blocks[|blocks| - 1]);
    Framed(before.frames + step.frames, step.pending)
  }

  /** The sample streams between flagged packets: the reference the frames are measured against. */
  function Segments<T>(blocks: seq<Block<T>>): (r: seq<seq<T>>)
    ensures r != []
  {
    if blocks == [] then [[]] else Extend(Segments(blocks[..|blocks| - 1]), blocks[|blocks| - 1])
  }

  function AllChunks<T>(segments: seq<seq<T>>): seq<seq<T>> {
    if segments == [] then []
    else AllChunks(segments[..|segments| - 1]) + Chunks(segments[|segments| - 1])
  }

  lemma AllChunksSnoc<T>(segments: seq<seq<T>>, s: seq<T>)
    ensures AllChunks(segments + [s]) == AllChunks(segments) + Chunks(s)
  {
    assert (segments + [s])[..|segments|] == segments;
  }

  /** No frame straddles a flagged packet: the frames are the complete chunks of each segment. */
  lemma {:induction false} FramesAreSegmentChunks<T>(blocks: seq<Block<T>>)
    ensures Run(blocks).frames == AllChunks(Segments(blocks))
    ensures Run(blocks).pending == Rest(Segments(blocks)[|Segments(blocks)| - 1])
  {
    if blocks == [] {
      AllChunksSnoc<T>([], []);
    } else {
      var init, b := blocks[..|blocks| - 1], blocks[|blocks| - 1];
      FramesAreSegmentChunks(init);
      SegmentChunksStep(Run(init), Segments(init), b);
    }
    hide AllChunks, Rest, Chunks;
  }

  /** The segments after one more packet. */
  function Extend<T>(before: seq<seq<T>>, b: Block<T>): (r: seq<seq<T>>)
    requires before != []
    ensures r != []
  {
    if b.flagged then before + [b.samples]
    else before[..|before| - 1] + [before[|before| - 1] + b.samples]
  }

  /** Samples that arrive in the last segment continue its partial frame. */
  lemma SegmentGrows<T>(closed: seq<seq<T>>, open: seq<T>, more: seq<T>)
    ensures AllChunks(closed + [open + more]) == AllChunks(closed + [open]) + Chunks(Rest(open) + more)
    ensures Rest(open + more) == Rest(Rest(open) + more)
  {
    hide AllChunks, Chunks, Rest;
    AllChunksSnoc(closed, open);
    AllChunksSnoc(closed, open + more);
    ChunksResume(open, more);
    Associative(AllChunks(closed), Chunks(open), Chunks(Rest(open) + more));
  }

  lemma Associative<T>(a: seq<T>, b: seq<T>, c: seq<T>)
    ensures a + (b + c) == a + b + c && [] + a == a
  {
  }

  lemma SegmentChunksStep<T>(run: Framed<T>, before: seq<seq<T>>, b: Block<T>)
    requires before != [] && run == Framed(AllChunks(before), Rest(before[|before| - 1]))
    ensures var step, after := Feed(run.pending, b), Extend(before, b);
            run.frames + step.frames == AllChunks(after) && step.pending == Rest(after[|after| - 1])
  {
    hide Chunks, Rest, AllChunks;
    if b.flagged {
      Associative(b.samples, [], []);
      AllChunksSnoc(before, b.samples);
    } else {
      var closed, open := before[..|before| - 1], before[|before| - 1];
      assert before == closed + [open];
      SegmentGrows(closed, open, b.samples);
    }
  }

  function Received<T>(blocks: seq<Block<T>>): nat {
    if blocks == [] then 0
    else Received(blocks[..|blocks| - 1]) + |blocks[|blocks| - 1].samples|
  }

  /** Samples that end up in no frame because their segment was cut. */
  function Dropped<T>(segments: seq<seq<T>>): nat {
    if |segments| <= 1 then 0
    else Dropped(segments[..|segments| - 1]) + |Rest(segments[|segments| - 2])|
  }

  /** Conservation: each sample is framed, pending or lost at a cut, and a cut loses under a frame. */
  lemma {:induction false} FramingConservation<T>(blocks: seq<Block<T>>)
    ensures Received(blocks)
         == FRAME_SAMPLES * |Run(blocks).frames| + |Run(blocks).pending| + Dropped(Segments(blocks))
    ensures |Segments(blocks)| == 1 + Count((b: Block<T>) => b.flagged, blocks)
    ensures Dropped(Segments(blocks)) <= (FRAME_SAMPLES - 1) * (|Segments(blocks)| - 1)
  {
    if blocks != [] {
      var init := blocks[..|blocks| - 1];
      var before, after := Segments(init), Segments(blocks);
      FramingConservation(init);
      FramesAreSegmentChunks(init);
      if blocks[|blocks| - 1].flagged {
        assert after[..|after| - 1] == before;
      } else if |before| > 1 {
        assert after[..|after| - 1] == before[..|before| - 1];
      }
    }
  }

  lemma {:induction false} RunSuffix<T>(a: seq<Block<T>>, b: seq<Block<T>>, tail: seq<Block<T>>)
    requires Run(a) == Run(b)
    ensures Run(a + tail) == Run(b + tail)
  {
    if tail == [] {
      assert a + tail == a && b + tail == b;
    } else {
      var init := tail[..|tail| - 1];
      RunSuffix(a, b, init);
      assert (a + tail)[..|a + tail| - 1] == a + init;
      assert (b + tail)[..|b + tail| - 1] == b + init;
    }
  }

  lemma RunSnoc<T>(blocks: seq<Block<T>>, b: Block<T>)
    ensures var before := Run(blocks); var step := Feed(before.pending, b);
            Run(blocks + [b]) == Framed(before.frames + step.frames, step.pending)
  {
    assert (blocks + [b])[..|blocks|] == blocks;
    hide Feed;
  }

  lemma FeedTwice<T>(pending: seq<T>, flagged: bool, x: seq<T>, y: seq<T>)
    ensures var first := Feed(pending, Block(flagged, x)); var second := Feed(first.pending, Block(false, y));
            Feed(pending, Block(flagged, x + y)) == Framed(first.frames + second.frames, second.pending)
  {
    hide Chunks, Rest;
    var start := if flagged then [] else pending;
    Associative(start, x, y);
    ChunksResume(start + x, y);
  }

  lemma SplitLastPacket<T>(head: seq<Block<T>>, flagged: bool, x: seq<T>, y: seq<T>)
    ensures Run(head + [Block(flagged, x + y)]) == Run(head + [Block(flagged, x), Block(false, y)])
  {
    hide Run, Feed;
    var start, a, b := Run(head), Block(flagged, x), Block(false, y);
    RunSnoc(head, Block(flagged, x + y));
    RunSnoc(head, a);
    RunSnoc(head + [a], b);
    assert head + [a] + [b] == head + [a, b];
    FeedTwice(start.pending, flagged, x, y);
    var first := Feed(start.pending, a);
    Associative(start.frames, first.frames, Feed(first.pending, b).frames);
  }

  /** Packet boundaries carry no meaning: cutting any packet in two changes nothing. */
  lemma SplitPacket<T>(head: seq<Block<T>>, flagged: bool, x: seq<T>, y: seq<T>, tail: seq<Block<T>>)
    ensures Run(head + [Block(flagged, x + y)] + tail)
         == Run(head + [Block(flagged, x), Block(false, y)] + tail)
  {
    hide *;
    SplitLastPacket(head, flagged, x, y);
    RunSuffix(head + [Block(flagged, x + y)], head + [Block(flagged, x), Block(false, y)], tail);
  }

  // ---- Where the samples of a frame come from ----

  function MapBlock<A, B>(f: A -> B, b: Block<A>): Block<B> { Block(b.flagged, Map(f, b.samples)) }

  function MapBlocks<A, B>(f: A -> B, blocks: seq<Block<A>>): (r: seq<Block<B>>)
    ensures |r| == |blocks| && forall n :: 0 <= n < |r| ==> r[n] == MapBlock(f, blocks[n])
  {
    seq(|blocks|, n requires 0 <= n < |blocks| => MapBlock(f, blocks[n]))
  }

  function MapFrames<A, B>(f: A -> B, frames: seq<seq<A>>): (r: seq<seq<B>>)
    ensures |r| == |frames| && forall k :: 0 <= k < |r| ==> r[k] == Map(f, frames[k])
  {
    seq(|frames|, k requires 0 <= k < |frames| => Map(f, frames[k]))
  }

  lemma FeedNatural<A, B>(f: A -> B, pending: seq<A>, b: Block<A>)
    ensures var a, b' := Feed(pending, b), Feed(Map(f, pending), MapBlock(f, b));
            b'.frames == MapFrames(f, a.frames) && b'.pending == Map(f, a.pending)
  {
    var start := if b.flagged then [] else pending;
    MapAppend(f, start, b.samples);
    MapChunks(f, start + b.samples);
    assert Map(f, []) == [];
    hide Chunks, Rest;
  }

  lemma MapFramesAppend<A, B>(f: A -> B, a: seq<seq<A>>, b: seq<seq<A>>)
    ensures MapFrames(f, a + b) == MapFrames(f, a) + MapFrames(f, b)
  {
  }

  /** Framing moves samples and never looks at them. */
  lemma {:induction false} RunNatural<A, B>(f: A -> B, blocks: seq<Block<A>>)
    ensures var a, b := Run(blocks), Run(MapBlocks(f, blocks));
            b.frames == MapFrames(f, a.frames) && b.pending == Map(f, a.pending)
  {
    if blocks == [] {
      assert MapBlocks(f, blocks) == [];
    } else {
      var n := |blocks| - 1;
      var before := Run(blocks[..n]);
      RunNatural(f, blocks[..n]);
      assert MapBlocks(f, blocks) == MapBlocks(f, blocks[..n]) + [MapBlock(f, blocks[n])];
      assert blocks == blocks[..n] + [blocks[n]];
      RunSnoc(MapBlocks(f, blocks[..n]), MapBlock(f, blocks[n]));
      RunSnoc(blocks[..n], blocks[n]);
      FeedNatural(f, before.pending, blocks[n]);
      MapFramesAppend(f, before.frames, Feed(before.pending, blocks[n]).frames);
      hide Run, Feed, Map, MapFrames, MapBlocks, MapBlock;
    }
  }

  /** A sample by its packet and its place in it. */
  datatype Origin = Origin(packet: nat, sample: nat)

  /** The samples that packet `n` contributes, and whether its flags cut the stream. */
  function OriginBlock(p: Packet, n: nat): Block<Origin> {
    Block(p.metadata.dataDiscontinuity || p.metadata.timestampError,
          seq(Min(|p.samples|, p.metadata.frames), i requires 0 <= i => Origin(n, i)))
  }

  function OriginBlocks(packets: seq<Packet>): (r: seq<Block<Origin>>)
    ensures |r| == |packets| && forall n :: 0 <= n < |r| ==> r[n] == OriginBlock(packets[n], n)
  {
    seq(|packets|, n requires 0 <= n < |packets| => OriginBlock(packets[n], n))
  }

  /** What is heard at an origin: silence where the packet says so. */
  function Heard(packets: seq<Packet>, o: Origin): Sample {
    if o.packet >= |packets| || o.sample >= |packets[o.packet].samples| then NonFinite
    else if packets[o.packet].metadata.silent then Finite(0.0)
    else packets[o.packet].samples[o.sample]
  }

  lemma PcmBlockStems(packets: seq<Packet>, n: nat)
    requires n < |packets|
    ensures PcmBlock(packets[n]) == MapBlock((o: Origin) => Pcm16(Heard(packets, o)).0, OriginBlock(packets[n], n))
  {
    hide Pcm16;
  }

  /**
   * Sample j of frame k is the PCM16 value of what is heard at one place of one packet, and which place that
   * is follows from the packets' lengths and flags alone.
   */
  lemma FramesStem(packets: seq<Packet>)
    ensures Run(PcmBlocks(packets)).frames
         == MapFrames((o: Origin) => Pcm16(Heard(packets, o)).0, Run(OriginBlocks(packets)).frames)
  {
    var f := (o: Origin) => Pcm16(Heard(packets, o)).0;
    hide Pcm16, Heard, Run;
    forall n | 0 <= n < |packets| ensures PcmBlocks(packets)[n] == MapBlocks(f, OriginBlocks(packets))[n] {
      PcmBlockStems(packets, n);
    }
    assert PcmBlocks(packets) == MapBlocks(f, OriginBlocks(packets));
    RunNatural(f, OriginBlocks(packets));
  }

  /** A sample that has to be sanitised: it is heard, and is no finite value within full scale. */
  predicate Unclean(p: Packet, i: nat) {
    && i < |p.samples| && i < p.metadata.frames && !p.metadata.silent
    && match p.samples[i]
       case NonFinite => true
       case Finite(x) => x < -1.0 || x > 1.0
  }

  lemma UncleanIs(p: Packet, i: nat)
    requires i < |Effective(p)|
    ensures NeedsSanitizing(Effective(p)[i]) <==> Unclean(p, i)
  {
  }

  lemma {:induction false} CountIsSize(p: Packet, n: nat)
    requires n <= |Effective(p)|
    ensures Count(NeedsSanitizing, Effective(p)[..n]) == |set i | 0 <= i < n && Unclean(p, i)|
  {
    var all := set i | 0 <= i < n && Unclean(p, i);
    if n == 0 {
      assert all == {};
    } else {
      CountIsSize(p, n - 1);
      CountPush(NeedsSanitizing, Effective(p), n - 1);
      var before := set i | 0 <= i < n - 1 && Unclean(p, i);
      UncleanIs(p, n - 1);
      hide Unclean;
      assert all == if Unclean(p, n - 1) then before + {n - 1} else before;
    }
    hide Unclean, Count, NeedsSanitizing, Effective;
  }

  /** The sanitised count of a packet is the number of its unclean samples. */
  lemma SanitizedExactly(p: Packet)
    ensures Sanitized(p) == |set i | 0 <= i < p.metadata.frames && Unclean(p, i)|
  {
    var n := |Effective(p)|;
    CountIsSize(p, n);
    assert Effective(p)[..n] == Effective(p);
    assert (set i | 0 <= i < n && Unclean(p, i)) == (set i | 0 <= i < p.metadata.frames && Unclean(p, i));
    hide Count, NeedsSanitizing;
  }

  class FrameAccumulator {
    const samples: array<int>
    var len: nat

    ghost predicate Valid()
      reads this, samples
    {
      samples.Length == FRAME_SAMPLES && len < FRAME_SAMPLES
      && forall i :: len <= i < FRAME_SAMPLES ==> samples[i] == 0
    }

    ghost function Pending(): (r: seq<int>)
      reads this, samples
      requires Valid()
    {
      samples[..len]
    }

    constructor ()
      ensures Valid() && fresh(samples) && Pending() == []
    {
      samples := new int[FRAME_SAMPLES](_ => 0);
      len := 0;
    }

    method Clear()
      requires samples.Length == FRAME_SAMPLES
      modifies this, samples
      ensures Valid() && Pending() == []
    {
      forall i | 0 <= i < samples.Length { samples[i] := 0; }
      len := 0;
    }

    /** Stores one converted sample; a completed frame leaves and the buffer is zeroed. */
    method PushSample(converted: int) returns (full: Option<seq<int>>)
      requires Valid()
      modifies this, samples
      ensures Valid()
      ensures old(len) + 1 < FRAME_SAMPLES ==> full == None && Pending() == old(Pending()) + [converted]
      ensures old(len) + 1 == FRAME_SAMPLES ==> full == Some(old(Pending()) + [converted]) && Pending() == []
    {
      samples[len] := converted;
      len := len + 1;
      assert samples[..len] == old(Pending()) + [converted];
      full := None;
      if len == FRAME_SAMPLES {
        assert samples[..] == samples[..len];
        full := Some(samples[..]);
        Clear();
      }
    }

    method PushPacket(packet: Packet) returns (emitted: seq<seq<int>>, sanitized: nat)
      requires Valid()
      modifies this, samples
      ensures Valid()
      ensures Framed(emitted, Pending()) == Feed(old(Pending()), PcmBlock(packet))
      ensures sanitized == Sanitized(packet)
    {
      hide Chunks, Rest, Count, PcmBlock, Pcm16, Pushed;
      if packet.metadata.Flagged() {
        Clear();
      }
      ghost var start, stream := Pending(), PcmBlock(packet);
      emitted, sanitized := [], 0;
      var take := Min(|packet.samples|, packet.metadata.frames);
      NothingPushed(start, packet);
      for i := 0 to take
        invariant Valid()
        invariant Pushed(start, packet, i) == (Framed(emitted, Pending()), sanitized)
      {
        var sample := if packet.metadata.silent then Finite(0.0) else packet.samples[i];
        var (converted, changed) := Pcm16(sample);
        PushStep(start, packet, i);
        sanitized := sanitized + if changed then 1 else 0;
        var full := PushSample(converted);
        if full.Some? {
          emitted := emitted + [full.value];
        }
      }
      AllPushed(start, packet);
    }
  }

  /** What the first `i` samples of a packet make of the partial frame `start`, and how many were sanitised. */
  function Pushed(start: seq<int>, p: Packet, i: nat): (Framed<int>, nat)
    requires i <= Min(|p.samples|, p.metadata.frames)
  {
    var stream := start + PcmBlock(p).samples[..i];
    (Framed(Chunks(stream), Rest(stream)), Count(NeedsSanitizing, Effective(p)[..i]))
  }

  lemma NothingPushed(start: seq<int>, p: Packet)
    requires |start| < FRAME_SAMPLES
    ensures Pushed(start, p, 0) == (Framed([], start), 0)
  {
    assert start + PcmBlock(p).samples[..0] == start;
  }

  lemma AllPushed(start: seq<int>, p: Packet)
    ensures Pushed(start, p, |Effective(p)|)
         == (Framed(Chunks(start + PcmBlock(p).samples), Rest(start + PcmBlock(p).samples)), Sanitized(p))
    ensures PcmBlock(p).flagged == p.metadata.Flagged()
  {
    var pcm := PcmBlock(p).samples;
    assert pcm[..|Effective(p)|] == pcm;
    assert Effective(p)[..|Effective(p)|] == Effective(p);
    hide Chunks, Rest, Count;
  }

  lemma PushStep(start: seq<int>, p: Packet, i: nat)
    requires i < Min(|p.samples|, p.metadata.frames)
    ensures var (before, count) := Pushed(start, p, i);
            var (converted, changed) := Pcm16(if p.metadata.silent then Finite(0.0) else p.samples[i]);
            var grown := before.pending + [converted];
            Pushed(start, p, i + 1) ==
              (if |grown| < FRAME_SAMPLES then Framed(before.frames, grown) else Framed(before.frames + [grown], []),
               count + if changed then 1 else 0)
  {
    hide Chunks, Rest, Count, Pcm16;
    ChunksPush(start, PcmBlock(p).samples, i);
    CountPush(NeedsSanitizing, Effective(p), i);
  }
}
