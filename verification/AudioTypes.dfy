/** Samples, packets and the 480-sample chunking shared by both accumulators. */
module AudioTypes {

  const FRAME_SAMPLES: nat := 480
  const U64_MAX: nat := 0xFFFF_FFFF_FFFF_FFFF
  const I16_MIN: int := -32768
  const I16_MAX: int := 32767

  datatype Option<+T> = None | Some(value: T)

  /** An f32 sample: rounding is not modelled, being non-finite is. */
  datatype Sample = Finite(value: real) | NonFinite

  datatype PacketMetadata = PacketMetadata(
    frames: nat, silent: bool, dataDiscontinuity: bool, timestampError: bool,
    devicePosition: nat, qpcTimestamp: nat)
  {
    predicate Flagged() { dataDiscontinuity || timestampError }
  }

  datatype Packet = Packet(samples: seq<Sample>, metadata: PacketMetadata)

  function Min(a: int, b: int): int { if a <= b then a else b }

  function Max(a: int, b: int): int { if a <= b then b else a }

  function SaturatingAdd(a: nat, b: nat): nat { Min(a + b, U64_MAX) }

  function SaturatingSub(a: nat, b: nat): nat { if a <= b then 0 else a - b }

  /** Rust's `round`: half away from zero. */
  function Round(x: real): int {
    if x >= 0.0 then (x + 0.5).Floor else -((-x + 0.5).Floor)
  }

  function ClampReal(x: real, lo: real, hi: real): real
    requires lo <= hi
  {
    if x < lo then lo else if x > hi then hi else x
  }

  /** The samples of a packet that count: silence is replaced before sanitising. */
  function Effective(p: Packet): (r: seq<Sample>)
    ensures |r| == Min(|p.samples|, p.metadata.frames)
  {
    seq(Min(|p.samples|, p.metadata.frames),
        i requires 0 <= i < |p.samples| => if p.metadata.silent then Finite(0.0) else p.samples[i])
  }

  function Map<A, B>(f: A -> B, s: seq<A>): (r: seq<B>)
    ensures |r| == |s|
    ensures forall i :: 0 <= i < |s| ==> r[i] == f(s[i])
  {
    seq(|s|, i requires 0 <= i < |s| => f(s[i]))
  }

  function Count<T>(p: T -> bool, s: seq<T>): (n: nat)
    ensures n <= |s|
  {
    if s == [] then 0 else Count(p, s[..|s| - 1]) + if p(s[|s| - 1]) then 1 else 0
  }

  /** The complete 480-element chunks of a stream, in order. */
  function Chunks<T>(s: seq<T>): (r: seq<seq<T>>)
    ensures |r| == |s| / FRAME_SAMPLES
    ensures forall k :: 0 <= k < |r| ==> |r[k]| == FRAME_SAMPLES
  {
    seq(|s| / FRAME_SAMPLES,
        k requires 0 <= k < |s| / FRAME_SAMPLES => s[FRAME_SAMPLES * k..FRAME_SAMPLES * (k + 1)])
  }

  /** What is left of a stream after its complete chunks. */
  function Rest<T>(s: seq<T>): (r: seq<T>)
    ensures |r| == |s| % FRAME_SAMPLES
  {
    s[|s| / FRAME_SAMPLES * FRAME_SAMPLES..]
  }

  lemma NoChunks<T>(s: seq<T>)
    requires |s| < FRAME_SAMPLES
    ensures Chunks(s) == [] && Rest(s) == s
  {
  }

  /** Chunking can be resumed from the remainder: only the partial chunk needs to be kept. */
  lemma ChunksResume<T>(a: seq<T>, b: seq<T>)
    ensures Chunks(a + b) == Chunks(a) + Chunks(Rest(a) + b)
    ensures Rest(a + b) == Rest(Rest(a) + b)
  {
    var whole := |a| / FRAME_SAMPLES;
    var tail := Rest(a) + b;
    assert a + b == a[..whole * FRAME_SAMPLES] + tail;
    assert |a + b| == whole * FRAME_SAMPLES + |tail|;
    forall k | 0 <= k < |Chunks(a + b)|
      ensures Chunks(a + b)[k] == (Chunks(a) + Chunks(tail))[k]
    {
      if whole <= k {
        var j := k - whole;
        assert (a + b)[FRAME_SAMPLES * k..FRAME_SAMPLES * (k + 1)] == tail[FRAME_SAMPLES * j..FRAME_SAMPLES * (j + 1)];
      } else {
        assert (a + b)[FRAME_SAMPLES * k..FRAME_SAMPLES * (k + 1)] == a[FRAME_SAMPLES * k..FRAME_SAMPLES * (k + 1)];
      }
    }
  }

  /** One more sample either extends the partial chunk or completes it. */
  lemma ChunksPush<T>(start: seq<T>, s: seq<T>, i: nat)
    requires i < |s|
    ensures var before, after := start + s[..i], start + s[..i + 1];
            var grown := Rest(before) + [s[i]];
            if |grown| < FRAME_SAMPLES then Chunks(after) == Chunks(before) && Rest(after) == grown
            else Chunks(after) == Chunks(before) + [grown] && Rest(after) == []
  {
    var before := start + s[..i];
    assert start + s[..i + 1] == before + [s[i]];
    ChunksResume(before, [s[i]]);
    var grown := Rest(before) + [s[i]];
    assert grown[0..|grown|] == grown;
  }

  lemma CountPush<T>(p: T -> bool, s: seq<T>, i: nat)
    requires i < |s|
    ensures Count(p, s[..i + 1]) == Count(p, s[..i]) + if p(s[i]) then 1 else 0
  {
    assert s[..i + 1][..i] == s[..i];
  }

  lemma MapChunks<A, B>(f: A -> B, s: seq<A>)
    ensures |Chunks(Map(f, s))| == |Chunks(s)|
    ensures forall k :: 0 <= k < |Chunks(s)| ==> Chunks(Map(f, s))[k] == Map(f, Chunks(s)[k])
    ensures Rest(Map(f, s)) == Map(f, Rest(s))
  {
    forall k | 0 <= k < |Chunks(s)|
      ensures Chunks(Map(f, s))[k] == Map(f, Chunks(s)[k])
    {
    }
  }

  lemma MapAppend<A, B>(f: A -> B, a: seq<A>, b: seq<A>)
    ensures Map(f, a + b) == Map(f, a) + Map(f, b)
  {
  }

  lemma {:induction false} CountAppend<T>(p: T -> bool, a: seq<T>, b: seq<T>)
    ensures Count(p, a + b) == Count(p, a) + Count(p, b)
  {
    if b == [] {
      assert a + b == a;
    } else {
      CountAppend(p, a, b[..|b| - 1]);
      assert (a + b)[..|a + b| - 1] == a + b[..|b| - 1];
    }
  }
}
