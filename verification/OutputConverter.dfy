/** The output format converter of crates/mini-aec-windows-output/src/lib.rs, over reals for f64. */
module OutputConverter {
  import opened AudioTypes

  datatype SampleType = Float | Integer

  datatype Format = Format(rateHz: nat, channels: nat, bits: nat, sampleType: SampleType)

  type Byte = n: nat | n < 256

  predicate Supported(f: Format) {
    && f.rateHz != 0 && f.rateHz % 100 == 0 && 1 <= f.channels <= 8
    && match f.sampleType
       case Float => f.bits == 32
       case Integer => f.bits == 16 || f.bits == 24 || f.bits == 32
  }

  function BytesPerSample(f: Format): nat { f.bits / 8 }

  // ---- Resampling ----

  /** The input sample at or before output frame `o` of `frames`. */
  function Left(frames: nat, o: nat): (left: nat)
    requires o < frames
    ensures left < FRAME_SAMPLES
  {
    QuotientBelow(o * FRAME_SAMPLES, FRAME_SAMPLES, frames);
    o * FRAME_SAMPLES / frames
  }

  /** How far past it `o` lies, in units of 1 / frames. */
  function Part(frames: nat, o: nat): (part: nat)
    requires o < frames
    ensures part < frames
  {
    o * FRAME_SAMPLES % frames
  }

  lemma Position(frames: nat, o: nat)
    requires o < frames
    ensures o * FRAME_SAMPLES / frames == Left(frames, o) && o * FRAME_SAMPLES % frames == Part(frames, o)
  {
  }

  lemma QuotientBelow(x: nat, n: nat, whole: nat)
    requires whole > 0 && x < n * whole
    ensures x / whole < n
  {
    var q := x / whole;
    Decompose(x, whole);
    SumTimes(q - n, n, whole);
    assert q >= n ==> (q - n) * whole >= 0 by {
      if q >= n { NonNegative(q - n, whole); }
    }
  }

  lemma SumTimes(a: int, b: int, c: int)
    ensures (a + b) * c == a * c + b * c
  {
  }

  lemma NonNegative(a: nat, b: nat)
    ensures a * b >= 0
  {
  }

  /** Output frame `o` of `frames`, between two neighbouring input samples. */
  function Resample(input: seq<int>, frames: nat, o: nat): real
    requires |input| == FRAME_SAMPLES && o < frames
  {
    var left := Left(frames, o);
    var right := Min(left + 1, FRAME_SAMPLES - 1);
    Between(input[left] as real, input[right] as real, Part(frames, o), frames)
  }

  function Between(a: real, b: real, part: nat, whole: nat): real
    requires whole > 0
  {
    a + Share(b - a, part, whole)
  }

  function Share(d: real, part: nat, whole: nat): real
    requires whole > 0
  {
    d * part as real / whole as real
  }

  lemma ShareIsBounded(d: real, part: nat, whole: nat)
    requires part < whole
    ensures d >= 0.0 ==> 0.0 <= Share(d, part, whole) <= d
    ensures d <= 0.0 ==> d <= Share(d, part, whole) <= 0.0
  {
    if d >= 0.0 {
      Scaled(d, part as real, whole as real);
    }
    if d <= 0.0 {
      ScaledDown(d, part as real, whole as real);
    }
  }

  lemma BetweenIsBounded(a: real, b: real, part: nat, whole: nat)
    requires part < whole
    ensures (if a <= b then a else b) <= Between(a, b, part, whole) <= (if a <= b then b else a)
  {
    hide Share;
    ShareIsBounded(b - a, part, whole);
  }

  lemma Scaled(d: real, part: real, whole: real)
    requires d >= 0.0 && 0.0 <= part <= whole && whole > 0.0
    ensures 0.0 <= d * part / whole <= d
  {
    assert 0.0 <= d * part;
    assert d * part <= d * whole;
    assert d * whole / whole == d;
  }

  lemma ScaledDown(d: real, part: real, whole: real)
    requires d <= 0.0 && 0.0 <= part <= whole && whole > 0.0
    ensures d <= d * part / whole <= 0.0
  {
    assert d * part <= 0.0;
    assert d * whole <= d * part;
    assert d * whole / whole == d;
  }

  /** No overshoot: every resampled value lies between its two source neighbours. */
  lemma ResampleIsBounded(input: seq<int>, frames: nat, o: nat)
    requires |input| == FRAME_SAMPLES && o < frames
    ensures var left := Left(frames, o);
            var a, b := input[left], input[Min(left + 1, FRAME_SAMPLES - 1)];
            Min(a, b) as real <= Resample(input, frames, o) <= Max(a, b) as real
  {
    hide Left, Part, Between;
    var left := Left(frames, o);
    BetweenIsBounded(input[left] as real, input[Min(left + 1, FRAME_SAMPLES - 1)] as real, Part(frames, o), frames);
  }

  ghost predicate Nondecreasing(s: seq<int>) { forall i, j :: 0 <= i < j < |s| ==> s[i] <= s[j] }

  lemma ShareIsMonotone(d: real, p: nat, q: nat, whole: nat)
    requires d >= 0.0 && p <= q < whole
    ensures Share(d, p, whole) <= Share(d, q, whole)
  {
    assert d * (q - p) as real >= 0.0;
    assert d * q as real - d * p as real == d * (q - p) as real;
    assert d * p as real / whole as real <= d * q as real / whole as real;
  }

  lemma BetweenIsMonotone(a: real, b: real, p: nat, q: nat, whole: nat)
    requires a <= b && p <= q < whole
    ensures Between(a, b, p, whole) <= Between(a, b, q, whole)
  {
    hide Share;
    ShareIsMonotone(b - a, p, q, whole);
  }

  lemma PositionIsMonotone(frames: nat, o: nat, p: nat)
    requires o <= p < frames
    ensures Left(frames, o) <= Left(frames, p)
    ensures Left(frames, o) == Left(frames, p) ==> Part(frames, o) <= Part(frames, p)
  {
    DivisionIsMonotone(o * FRAME_SAMPLES, p * FRAME_SAMPLES, frames);
  }

  lemma DivisionIsMonotone(a: nat, b: nat, whole: nat)
    requires a <= b && whole > 0
    ensures a / whole <= b / whole
    ensures a / whole == b / whole ==> a % whole <= b % whole
  {
    var (qa, qb) := (a / whole, b / whole);
    Decompose(a, whole);
    Decompose(b, whole);
    SumTimes(qa - qb, qb, whole);
    assert qa > qb ==> (qa - qb) * whole >= whole by {
      if qa > qb { AtLeastOnce(qa - qb, whole); }
    }
  }

  lemma Decompose(x: nat, whole: nat)
    requires whole > 0
    ensures x == x / whole * whole + x % whole && x % whole < whole
  {
  }

  lemma AtLeastOnce(k: int, whole: nat)
    requires k >= 1
    ensures k * whole >= whole
  {
    SumTimes(k - 1, 1, whole);
    NonNegative(k - 1, whole);
  }

  /** Resampling keeps the order of a nondecreasing input. */
  lemma ResampleIsMonotone(input: seq<int>, frames: nat, o: nat, p: nat)
    requires |input| == FRAME_SAMPLES && Nondecreasing(input) && o <= p < frames
    ensures Resample(input, frames, o) <= Resample(input, frames, p)
  {
    hide Left, Part, Between;
    PositionIsMonotone(frames, o, p);
    var l, m := Left(frames, o), Left(frames, p);
    var right := Min(l + 1, FRAME_SAMPLES - 1);
    assert input[l] <= input[right];
    if l == m {
      BetweenIsMonotone(input[l] as real, input[right] as real, Part(frames, o), Part(frames, p), frames);
    } else {
      ResampleIsBounded(input, frames, o);
      ResampleIsBounded(input, frames, p);
      assert input[right] <= input[m] <= input[Min(m + 1, FRAME_SAMPLES - 1)];
    }
  }

  lemma QuotientIs(x: nat, whole: nat, q: nat)
    requires q * whole <= x < (q + 1) * whole
    ensures whole > 0 && x / whole == q && x % whole == x - q * whole
  {
    Decompose(x, whole);
    SumTimes(q, 1, whole);
    var k := x / whole;
    if k < q {
      AtMost(k + 1, q, whole);
      SumTimes(k, 1, whole);
    } else if k > q {
      AtMost(q + 1, k, whole);
    }
  }

  lemma ShareTimes(d: real, part: nat, whole: nat)
    requires whole > 0
    ensures Share(d, part, whole) * whole as real == d * part as real
  {
  }

  /**
   * Output frame `o` lies on the straight line between its two source neighbours, wherever it falls: in units
   * of 1 / frames, it is as far above the left one as the right one is, times the distance from the left.
   */
  lemma ResampleIsLinear(input: seq<int>, frames: nat, o: nat, l: nat)
    requires |input| == FRAME_SAMPLES && o < frames && l * frames <= 480 * o < (l + 1) * frames
    ensures l < 480
    ensures var a, b := input[l], input[if l < 479 then l + 1 else 479];
            (Resample(input, frames, o) - a as real) * frames as real
            == (b as real - a as real) * (480 * o - l * frames) as real
  {
    QuotientIs(o * FRAME_SAMPLES, frames, l);
    var left, part := Left(frames, o), Part(frames, o);
    var a, b := input[left] as real, input[Min(left + 1, FRAME_SAMPLES - 1)] as real;
    ShareTimes(b - a, part, frames);
    assert Resample(input, frames, o) == a + Share(b - a, part, frames);
    hide Resample, Left, Part, Share, Between;
  }

  lemma ExactMultiple(m: nat, i: nat)
    requires m > 0
    ensures m * i * FRAME_SAMPLES / (FRAME_SAMPLES * m) == i && m * i * FRAME_SAMPLES % (FRAME_SAMPLES * m) == 0
  {
    var whole := FRAME_SAMPLES * m;
    assert m * i * FRAME_SAMPLES == i * whole;
    DivideProduct(i, whole);
  }

  lemma DivideProduct(i: nat, whole: nat)
    requires whole > 0
    ensures i * whole / whole == i && i * whole % whole == 0
  {
    var x := i * whole;
    var q := x / whole;
    Decompose(x, whole);
    SumTimes(i - q, q, whole);
    assert i > q ==> (i - q) * whole >= whole by {
      if i > q { AtLeastOnce(i - q, whole); }
    }
    assert i < q ==> (q - i) * whole >= whole by {
      if i < q { AtLeastOnce(q - i, whole); }
    }
    SumTimes(q - i, i, whole);
  }

  /** At a whole multiple of the engine rate every input sample comes out untouched. */
  lemma ResampleIsExact(input: seq<int>, m: nat, i: nat)
    requires |input| == FRAME_SAMPLES && m > 0 && i < FRAME_SAMPLES
    ensures m * i < FRAME_SAMPLES * m
    ensures Resample(input, FRAME_SAMPLES * m, m * i) == input[i] as real
  {
    assert m * i < m * FRAME_SAMPLES;
    ExactMultiple(m, i);
  }

  // ---- Encoding ----

  function LittleEndian(value: int, n: nat): (r: seq<Byte>)
    ensures |r| == n
    decreases n
  {
    if n == 0 then [] else [value % 256] + LittleEndian(value / 256, n - 1)
  }

  /** Two's complement, least significant byte first. */
  function Signed(bytes: seq<Byte>): int
    requires bytes != []
  {
    if |bytes| == 1 then (if bytes[0] < 128 then bytes[0] else bytes[0] - 256)
    else bytes[0] + 256 * Signed(bytes[1..])
  }

  function Half(n: nat): int
    requires n > 0
  {
    if n == 1 then 128 else 256 * Half(n - 1)
  }

  lemma {:induction false} SignedRoundTrip(value: int, n: nat)
    requires n > 0 && -Half(n) <= value < Half(n)
    ensures Signed(LittleEndian(value, n)) == value
    decreases n
  {
    if n == 1 {
      assert LittleEndian(value, 1) == [value % 256] + [];
    } else {
      SignedRoundTrip(value / 256, n - 1);
      assert LittleEndian(value, n)[1..] == LittleEndian(value / 256, n - 1);
    }
  }

  function ClampInt(x: int, lo: int, hi: int): int { if x < lo then lo else if x > hi then hi else x }

  /** The full-scale integer of a width: 2^(bits-1) - 1. */
  function FullScale(bits: nat): int { if bits == 16 then 32_767 else if bits == 24 then 8_388_607 else 2_147_483_647 }

  function Normalized(sample: real): real { ClampReal(sample / 32767.0, -1.0, 1.0) }

  /** The integer that a sample is encoded as. */
  function Quantized(sample: real, bits: nat): int {
    if bits == 16 then ClampInt(Round(sample), I16_MIN, I16_MAX)
    else ClampInt(Round(Normalized(sample) * FullScale(bits) as real), -FullScale(bits) - 1, FullScale(bits))
  }

  /** One sample as bytes; `f32Bits` gives the IEEE single-precision pattern of a value. */
  function Encode(sample: real, f: Format, f32Bits: real -> nat): (r: seq<Byte>)
    requires Supported(f)
    ensures |r| == BytesPerSample(f)
  {
    if f.sampleType.Float? then LittleEndian(f32Bits(Normalized(sample)), 4)
    else LittleEndian(Quantized(sample, f.bits), f.bits / 8)
  }

  /** The PCM16 sample nearest to what encoded bytes stand for. */
  function Decode(bytes: seq<Byte>, bits: nat): int
    requires bytes != []
  {
    if bits == 16 then Signed(bytes)
    else Narrowed(Signed(bytes), bits)
  }

  /** How loud a sample is, full scale being 32767, and clipped there. */
  function Level(sample: real): real {
    if sample > 32767.0 then 1.0 else if sample < -32767.0 then -1.0 else sample / 32767.0
  }

  /** `value` is `x` rounded to the nearest integer, halves away from zero. */
  predicate Rounds(x: real, value: int) {
    if x >= 0.0 then x - 0.5 < value as real <= x + 0.5 else x - 0.5 <= value as real < x + 0.5
  }

  lemma QuantizedIsNearest(sample: real, bits: nat)
    requires bits == 16 || bits == 24 || bits == 32
    ensures var q := Quantized(sample, bits);
            if bits == 16 then
              if sample > 32767.0 then q == 32_767 else if sample < -32768.0 then q == -32_768 else Rounds(sample, q)
            else Rounds(Level(sample) * (if bits == 24 then 8388607.0 else 2147483647.0), q)
  {
    if bits != 16 {
      assert Normalized(sample) == Level(sample);
      Magnify(Normalized(sample), FullScale(bits) as real);
    }
  }

  /** The unsigned value of bytes, least significant first. */
  function Unsigned(bytes: seq<Byte>): nat {
    if bytes == [] then 0 else bytes[0] + 256 * Unsigned(bytes[1..])
  }

  function Power256(n: nat): nat { if n == 0 then 1 else 256 * Power256(n - 1) }

  lemma {:induction false} UnsignedRoundTrip(value: nat, n: nat)
    requires value < Power256(n)
    ensures Unsigned(LittleEndian(value, n)) == value
    decreases n
  {
    if n > 0 {
      UnsignedRoundTrip(value / 256, n - 1);
      assert LittleEndian(value, n)[1..] == LittleEndian(value / 256, n - 1);
    }
  }

  /**
   * What the bytes of any sample stand for, interpolated or not: in 16 bits the nearest integer within i16,
   * in 24 and 32 bits the nearest integer to its clipped level, and as a float the pattern of that level.
   */
  lemma EncodeIsNearest(sample: real, f: Format, f32Bits: real -> nat)
    requires Supported(f) && f32Bits(Level(sample)) < 0x1_0000_0000
    ensures var bytes := Encode(sample, f, f32Bits);
            match f.sampleType
            case Float => |bytes| == 4 && Unsigned(bytes) == f32Bits(Level(sample))
            case Integer =>
              && |bytes| == f.bits / 8 && bytes != []
              && var value := Signed(bytes);
                 if f.bits == 16 then
                   if sample > 32767.0 then value == 32_767
                   else if sample < -32768.0 then value == -32_768
                   else Rounds(sample, value)
                 else Rounds(Level(sample) * (if f.bits == 24 then 8388607.0 else 2147483647.0), value)
  {
    assert Power256(4) == 0x1_0000_0000;
    assert Normalized(sample) == Level(sample);
    if f.sampleType.Float? {
      UnsignedRoundTrip(f32Bits(Level(sample)), 4);
    } else {
      QuantizedInRange(sample, f.bits);
      QuantizedIsNearest(sample, f.bits);
      SignedRoundTrip(Quantized(sample, f.bits), f.bits / 8);
    }
    hide Signed, LittleEndian, Unsigned, Quantized, Rounds, Normalized, Level;
  }

  lemma QuantizedInRange(sample: real, bits: nat)
    requires bits == 16 || bits == 24 || bits == 32
    ensures -Half(bits / 8) <= Quantized(sample, bits) < Half(bits / 8)
  {
    assert Half(2) == 32_768 && Half(3) == 8_388_608 && Half(4) == 2_147_483_648;
  }

  lemma WideQuantized(v: int, bits: nat)
    requires bits == 24 || bits == 32
    requires -32_767 <= v <= I16_MAX
    ensures var scale := FullScale(bits) as real;
            -0.5 <= Quantized(v as real, bits) as real - v as real * scale / 32767.0 <= 0.5
  {
    var scale := FullScale(bits) as real;
    var x := v as real / 32767.0;
    assert -1.0 <= x <= 1.0;
    assert Normalized(v as real) == x;
    assert x * scale == v as real * scale / 32767.0;
    assert -scale <= x * scale <= scale by { Magnify(x, scale); }
  }

  lemma Magnify(x: real, scale: real)
    requires -1.0 <= x <= 1.0 && scale >= 0.0
    ensures -scale <= x * scale <= scale
  {
  }

  lemma RoundNear(x: real, v: int)
    requires v as real - 0.5 < x < v as real + 0.5
    ensures Round(x) == v
  {
  }

  /**
   * Encoding loses nothing that PCM16 can hold, with one exception: at 24 and 32 bits i16::MIN comes back
   * as -32767, because normalisation clamps it to -1.
   */
  lemma EncodeRoundTrip(v: int, f: Format, f32Bits: real -> nat)
    requires Supported(f) && f.sampleType.Integer? && I16_MIN <= v <= I16_MAX
    ensures Decode(Encode(v as real, f, f32Bits), f.bits) == v <==> f.bits == 16 || v != I16_MIN
  {
    QuantizedInRange(v as real, f.bits);
    SignedRoundTrip(Quantized(v as real, f.bits), f.bits / 8);
    if f.bits == 16 {
      assert Quantized(v as real, 16) == v by { RoundNear(v as real, v); }
    } else if v == I16_MIN {
      SmallestQuantized(f.bits);
    } else {
      WideRoundTrip(v, f.bits);
    }
    hide Signed, LittleEndian, Quantized;
  }

  /** The PCM16 sample that an integer of a wide format stands for. */
  function Narrowed(value: int, bits: nat): int { Round(value as real * 32767.0 / FullScale(bits) as real) }

  lemma SmallestQuantized(bits: nat)
    requires bits == 24 || bits == 32
    ensures Narrowed(Quantized(I16_MIN as real, bits), bits) == -32_767
  {
    var q, scale := Quantized(I16_MIN as real, bits), FullScale(bits) as real;
    assert Normalized(I16_MIN as real) == -1.0;
    assert q == -FullScale(bits);
    assert q as real * 32767.0 / scale == -32767.0;
    RoundNear(-32767.0, -32767);
  }

  lemma WideRoundTrip(v: int, bits: nat)
    requires bits == 24 || bits == 32
    requires -32_767 <= v <= I16_MAX
    ensures Narrowed(Quantized(v as real, bits), bits) == v
  {
    var q, scale := Quantized(v as real, bits), FullScale(bits) as real;
    WideQuantized(v, bits);
    hide Quantized;
    Rescale(q as real, v as real, scale);
    RoundNear(q as real * 32767.0 / scale, v);
    hide Round;
  }

  lemma Rescale(q: real, v: real, scale: real)
    requires scale >= 8388607.0 && -0.5 <= q - v * scale / 32767.0 <= 0.5
    ensures v - 0.5 < q * 32767.0 / scale < v + 0.5
  {
    var error := q - v * scale / 32767.0;
    assert q * 32767.0 == v * scale + error * 32767.0;
    assert q * 32767.0 / scale == v + error * 32767.0 / scale;
    assert -16383.5 <= error * 32767.0 <= 16383.5;
    SmallQuotient(error * 32767.0, scale);
  }

  lemma SmallQuotient(x: real, scale: real)
    requires scale >= 8388607.0 && -16383.5 <= x <= 16383.5
    ensures -0.5 < x / scale < 0.5
  {
  }

  // ---- A whole frame ----

  function Repeat(bytes: seq<Byte>, n: nat): (r: seq<Byte>)
    ensures |r| == n * |bytes|
  {
    if n == 0 then [] else Repeat(bytes, n - 1) + bytes
  }

  /** The first `n` output frames: every channel carries the same sample. */
  function EncodedFrames(input: seq<int>, f: Format, f32Bits: real -> nat, n: nat): (r: seq<Byte>)
    requires |input| == FRAME_SAMPLES && Supported(f) && n <= f.rateHz / 100
    ensures |r| == n * f.channels * BytesPerSample(f)
  {
    if n == 0 then [] else
    var before := EncodedFrames(input, f, f32Bits, n - 1);
    var more := Repeat(Encode(Resample(input, f.rateHz / 100, n - 1), f, f32Bits), f.channels);
    assert |before| + |more| == n * f.channels * BytesPerSample(f) by {
      FrameStep(n - 1, f.channels, BytesPerSample(f));
    }
    before + more
  }

  lemma FrameStep(o: nat, channels: nat, width: nat)
    ensures o * channels * width + channels * width == (o + 1) * channels * width
  {
    SumTimes(o, 1, channels);
    SumTimes(o * channels, channels, width);
  }

  /** Byte offset of one sample, as the source computes it. */
  function Offset(o: nat, channel: nat, channels: nat, width: nat): nat { (o * channels + channel) * width }

  lemma OffsetFits(o: nat, channel: nat, frames: nat, channels: nat, width: nat)
    requires o < frames && channel < channels
    ensures Offset(o, channel, channels, width) + width == Offset(o, channel + 1, channels, width)
    ensures Offset(o, channel, channels, width) + width <= frames * channels * width
    ensures Offset(o, channel, channels, width) == o * channels * width + channel * width
  {
    SumTimes(o * channels + channel, 1, width);
    SumTimes(o * channels, channel, width);
    AtMost(o + 1, frames, channels);
    SumTimes(o, 1, channels);
    AtMost(o * channels + channel + 1, frames * channels, width);
  }

  lemma AtMost(a: nat, b: nat, c: nat)
    requires a <= b
    ensures a * c <= b * c
  {
    SumTimes(b - a, a, c);
    NonNegative(b - a, c);
  }

  lemma FirstOffset(o: nat, channels: nat, width: nat)
    ensures Offset(o, 0, channels, width) == o * channels * width
  {
  }

  lemma NextOffset(o: nat, channels: nat, width: nat)
    ensures Offset(o, channels, channels, width) == Offset(o + 1, 0, channels, width)
  {
    SumTimes(o, 1, channels);
  }

  lemma NoRepeat(bytes: seq<Byte>)
    ensures Repeat(bytes, 0) == []
  {
  }

  lemma LastRepeat(bytes: seq<Byte>, n: nat)
    ensures Repeat(bytes, n + 1) == Repeat(bytes, n) + bytes
  {
  }

  lemma Associative<T>(a: seq<T>, b: seq<T>, c: seq<T>)
    ensures a + b + c == a + (b + c) && a + [] == a
  {
  }

  lemma Suffix<T>(a: seq<T>, b: seq<T>, i: nat, j: nat)
    requires i <= j <= |a| == |b| && a[i..] == b[i..]
    ensures a[j..] == b[j..]
  {
    assert a[i..][j - i..] == a[j..] && b[i..][j - i..] == b[j..];
  }

  lemma RepeatAt(bytes: seq<Byte>, n: nat, k: nat)
    requires k < n
    ensures k * |bytes| + |bytes| <= n * |bytes|
    ensures Repeat(bytes, n)[k * |bytes|..k * |bytes| + |bytes|] == bytes
  {
    AtMost(k + 1, n, |bytes|);
    SumTimes(k, 1, |bytes|);
    SumTimes(n - 1, 1, |bytes|);
    if k < n - 1 {
      RepeatAt(bytes, n - 1, k);
    } else {
      assert k * |bytes| == (n - 1) * |bytes|;
    }
  }

  lemma Slices<T>(a: seq<T>, b: seq<T>, i: nat, j: nat)
    requires i <= j
    ensures j <= |a| ==> (a + b)[i..j] == a[i..j]
    ensures j <= |b| ==> (a + b)[|a| + i..|a| + j] == b[i..j]
  {
  }

  lemma FramesStep(input: seq<int>, f: Format, f32Bits: real -> nat, o: nat)
    requires |input| == FRAME_SAMPLES && Supported(f) && o < f.rateHz / 100
    ensures EncodedFrames(input, f, f32Bits, o + 1)
         == EncodedFrames(input, f, f32Bits, o)
            + Repeat(Encode(Resample(input, f.rateHz / 100, o), f, f32Bits), f.channels)
  {
  }

  lemma SampleInLast(input: seq<int>, f: Format, f32Bits: real -> nat, o: nat, channel: nat)
    requires |input| == FRAME_SAMPLES && Supported(f) && o < f.rateHz / 100 && channel < f.channels
    ensures var at, width := Offset(o, channel, f.channels, BytesPerSample(f)), BytesPerSample(f);
            && at + width <= |EncodedFrames(input, f, f32Bits, o + 1)|
            && EncodedFrames(input, f, f32Bits, o + 1)[at..at + width]
               == Encode(Resample(input, f.rateHz / 100, o), f, f32Bits)
  {
    FramesStep(input, f, f32Bits, o);
    hide Resample, Encode, Repeat, Supported, Offset;
    var sample := Encode(Resample(input, f.rateHz / 100, o), f, f32Bits);
    ChannelSlice(EncodedFrames(input, f, f32Bits, o), sample, o, f.channels, channel);
    hide EncodedFrames, BytesPerSample;
  }

  lemma ChannelSlice(before: seq<Byte>, sample: seq<Byte>, o: nat, channels: nat, channel: nat)
    requires channel < channels && |before| == o * channels * |sample|
    ensures var at, all := Offset(o, channel, channels, |sample|), before + Repeat(sample, channels);
            at + |sample| <= |all| && all[at..at + |sample|] == sample
  {
    hide Repeat, Offset;
    RepeatAt(sample, channels, channel);
    OffsetFits(o, channel, o + 1, channels, |sample|);
    var k := channel * |sample|;
    Slices(before, Repeat(sample, channels), k, k + |sample|);
  }

  /** Where to find the sample of any output frame and channel in a converted frame. */
  lemma {:induction false} SampleAt(input: seq<int>, f: Format, f32Bits: real -> nat, n: nat, o: nat, channel: nat)
    requires |input| == FRAME_SAMPLES && Supported(f) && o < n <= f.rateHz / 100 && channel < f.channels
    ensures var at, width := Offset(o, channel, f.channels, BytesPerSample(f)), BytesPerSample(f);
            && at + width <= |EncodedFrames(input, f, f32Bits, n)|
            && EncodedFrames(input, f, f32Bits, n)[at..at + width]
               == Encode(Resample(input, f.rateHz / 100, o), f, f32Bits)
    decreases n
  {
    hide Resample, Encode, Repeat, EncodedFrames, Supported, BytesPerSample, Offset;
    if o < n - 1 {
      var at, width := Offset(o, channel, f.channels, BytesPerSample(f)), BytesPerSample(f);
      SampleAt(input, f, f32Bits, n - 1, o, channel);
      FramesStep(input, f, f32Bits, n - 1);
      Slices(EncodedFrames(input, f, f32Bits, n - 1),
             Repeat(Encode(Resample(input, f.rateHz / 100, n - 1), f, f32Bits), f.channels), at, at + width);
    } else {
      SampleInLast(input, f, f32Bits, o, channel);
    }
  }

  /** The layout of a whole converted frame, byte offsets and length spelled out. */
  lemma FrameLayout(input: seq<int>, f: Format, f32Bits: real -> nat, o: nat, channel: nat)
    requires |input| == FRAME_SAMPLES && Supported(f) && o < f.rateHz / 100 && channel < f.channels
    ensures var bytes, width := EncodedFrames(input, f, f32Bits, f.rateHz / 100), f.bits / 8;
            var at := Offset(o, channel, f.channels, width);
            && |bytes| == f.rateHz / 100 * f.channels * width && at == (o * f.channels + channel) * width
            && at + width <= |bytes|
            && bytes[at..at + width] == Encode(Resample(input, f.rateHz / 100, o), f, f32Bits)
  {
    hide Resample, Encode, EncodedFrames, Supported;
    SampleAt(input, f, f32Bits, f.rateHz / 100, o, channel);
    OffsetIs(o, channel, f.channels, f.bits / 8);
    hide Offset;
  }

  lemma OffsetIs(o: nat, channel: nat, channels: nat, width: nat)
    ensures Offset(o, channel, channels, width) == (o * channels + channel) * width
  {
  }

  /** A sample that resampling leaves alone decodes to itself, if its format can hold it. */
  lemma SampleSurvives(input: seq<int>, f: Format, f32Bits: real -> nat, o: nat, v: int, channel: nat)
    requires |input| == FRAME_SAMPLES && I16_MIN <= v <= I16_MAX
    requires Supported(f) && f.sampleType.Integer? && channel < f.channels
    requires o < f.rateHz / 100 && Resample(input, f.rateHz / 100, o) == v as real
    ensures var width := BytesPerSample(f);
            var at, bytes := Offset(o, channel, f.channels, width), EncodedFrames(input, f, f32Bits, f.rateHz / 100);
            && at + width <= |bytes|
            && (Decode(bytes[at..at + width], f.bits) == v <==> f.bits == 16 || v != I16_MIN)
  {
    hide Resample, Encode, Decode, EncodedFrames, Offset;
    SampleAt(input, f, f32Bits, f.rateHz / 100, o, channel);
    EncodeRoundTrip(v, f, f32Bits);
    hide Supported;
  }

  lemma WholeMultiple(rateHz: nat, m: nat)
    requires rateHz == 48_000 * m && rateHz != 0
    ensures rateHz / 100 == FRAME_SAMPLES * m && m > 0
  {
  }

  /**
   * Converter correctness end to end: at m times the engine rate, in any integer format and on any
   * channel, every m-th sample decodes to the input sample, i16::MIN at 24 and 32 bits excepted.
   */
  lemma ConversionPreservesSamples(input: seq<int>, f: Format, f32Bits: real -> nat, m: nat, i: nat, channel: nat)
    requires |input| == FRAME_SAMPLES && (forall k :: 0 <= k < |input| ==> I16_MIN <= input[k] <= I16_MAX)
    requires Supported(f) && f.sampleType.Integer? && f.rateHz == 48_000 * m
    requires channel < f.channels && i < FRAME_SAMPLES
    ensures var width := BytesPerSample(f);
            var at := Offset(m * i, channel, f.channels, width);
            var bytes := EncodedFrames(input, f, f32Bits, f.rateHz / 100);
            && at + width <= |bytes|
            && (Decode(bytes[at..at + width], f.bits) == input[i] <==> f.bits == 16 || input[i] != I16_MIN)
  {
    assert f.rateHz != 0;
    hide Supported, Resample, Encode, Decode, EncodedFrames, Offset, BytesPerSample;
    WholeMultiple(f.rateHz, m);
    ResampleIsExact(input, m, i);
    SampleSurvives(input, f, f32Bits, m * i, input[i], channel);
  }

  class FrameConverter {
    const format: Format
    const outputFrames: nat
    const requiresConversion: bool
    const f32Bits: real -> nat
    const bytes: array<Byte>

    ghost predicate Valid() {
      && Supported(format) && outputFrames == format.rateHz / 100
      && bytes.Length == outputFrames * format.channels * BytesPerSample(format)
    }

    constructor (format: Format, f32Bits: real -> nat)
      requires Supported(format)
      ensures Valid() && this.format == format && this.f32Bits == f32Bits && fresh(bytes)
      ensures requiresConversion <==> format != Format(48_000, 1, 16, Integer)
    {
      this.format := format;
      this.f32Bits := f32Bits;
      outputFrames := format.rateHz / 100;
      bytes := new Byte[format.rateHz / 100 * format.channels * BytesPerSample(format)](_ => 0);
      requiresConversion :=
        format.rateHz != 48_000 || format.channels != 1 || format.bits != 16 || format.sampleType != Integer;
    }

    method EncodeSample(sample: real, offset: nat)
      requires Valid() && offset + BytesPerSample(format) <= bytes.Length
      modifies bytes
      ensures bytes[..offset + BytesPerSample(format)] == old(bytes[..offset]) + Encode(sample, format, f32Bits)
      ensures bytes[offset + BytesPerSample(format)..] == old(bytes[offset + BytesPerSample(format)..])
    {
      var encoded := Encode(sample, format, f32Bits);
      hide Encode, Supported, BytesPerSample;
      for k := 0 to |encoded|
        invariant bytes[..offset + k] == old(bytes[..offset]) + encoded[..k]
        invariant bytes[offset + k..] == old(bytes[offset + k..])
      {
        bytes[offset + k] := encoded[k];
        assert bytes[..offset + k + 1] == bytes[..offset + k] + [encoded[k]];
      }
      assert encoded[..|encoded|] == encoded;
    }

    /** The inner loop of `convert`: one output frame on every channel. */
    method WriteChannels(sample: real, o: nat)
      requires Valid() && o < outputFrames
      modifies bytes
      ensures var channels, width := format.channels, BytesPerSample(format);
              && Offset(o, 0, channels, width) <= Offset(o + 1, 0, channels, width) <= bytes.Length
              && bytes[..Offset(o + 1, 0, channels, width)]
                 == old(bytes[..Offset(o, 0, channels, width)]) + Repeat(Encode(sample, format, f32Bits), channels)
              && bytes[Offset(o + 1, 0, channels, width)..] == old(bytes[Offset(o + 1, 0, channels, width)..])
    {
      assert format.channels > 0;
      hide Encode, Offset, Repeat, Supported;
      var channels, width := format.channels, BytesPerSample(format);
      ghost var encoded := Encode(sample, format, f32Bits);
      ghost var original := bytes[..];
      OffsetFits(o, 0, outputFrames, channels, width);
      NoRepeat(encoded);
      for channel := 0 to channels
        invariant Offset(o, 0, channels, width) <= Offset(o, channel, channels, width) <= bytes.Length
        invariant bytes[..Offset(o, channel, channels, width)]
               == original[..Offset(o, 0, channels, width)] + Repeat(encoded, channel)
        invariant bytes[Offset(o, channel, channels, width)..] == original[Offset(o, channel, channels, width)..]
      {
        OffsetFits(o, channel, outputFrames, channels, width);
        ghost var previous := bytes[..];
        EncodeSample(sample, Offset(o, channel, channels, width));
        LastRepeat(encoded, channel);
        Associative(original[..Offset(o, 0, channels, width)], Repeat(encoded, channel), encoded);
        Suffix(previous, original, Offset(o, channel, channels, width), Offset(o, channel + 1, channels, width));
      }
      NextOffset(o, channels, width);
    }

    /** Linear interpolation between the two source samples around output frame `o`. */
    method ResampleFrame(input: seq<int>, o: nat) returns (sample: real)
      requires Valid() && |input| == FRAME_SAMPLES && o < outputFrames
      ensures sample == Resample(input, outputFrames, o)
    {
      hide Left, Part, Supported, Between;
      Position(outputFrames, o);
      var numerator := o * FRAME_SAMPLES;
      var left, remainder := numerator / outputFrames, numerator % outputFrames;
      var right := Min(left + 1, FRAME_SAMPLES - 1);
      var leftSample := input[left] as real;
      sample := Between(leftSample, input[right] as real, remainder, outputFrames);
    }

    /** Every byte is written, so nothing of an earlier frame is left. */
    method Convert(input: seq<int>)
      requires Valid() && |input| == FRAME_SAMPLES
      modifies bytes
      ensures bytes[..] == EncodedFrames(input, format, f32Bits, outputFrames)
    {
      hide Resample, Encode, Repeat, Offset, EncodedFrames;
      var channels, width := format.channels, BytesPerSample(format);
      FirstOffset(0, channels, width);
      for o := 0 to outputFrames
        invariant Offset(o, 0, channels, width) <= bytes.Length
        invariant bytes[..Offset(o, 0, channels, width)] == EncodedFrames(input, format, f32Bits, o)
      {
        var sample := ResampleFrame(input, o);
        FramesStep(input, format, f32Bits, o);
        WriteChannels(sample, o);
      }
      FirstOffset(outputFrames, channels, width);
      assert bytes[..bytes.Length] == bytes[..];
    }

    method Clear()
      modifies bytes
      ensures forall i :: 0 <= i < bytes.Length ==> bytes[i] == 0
    {
      forall i | 0 <= i < bytes.Length { bytes[i] := 0; }
    }
  }
}
