/**
 * The 16-bit PCM RIFF/WAVE container that the browser app builds from the decoded
 * synthesis audio: the byte layout as a function of the audio buffer, the readers
 * that give meaning to those bytes, and what the layout promises.
 */
module Wav {

  newtype uint8 = x: int | 0 <= x < 0x100

  /** A decoded Web Audio buffer: sample rate, frame count and one sample array per channel. */
  datatype PcmBuffer = PcmBuffer(sampleRate: nat, length: nat, channelData: seq<seq<real>>) {
    /** Every channel holds exactly `length` samples. */
    predicate WellFormed() {
      forall c | 0 <= c < |channelData| :: |channelData[c]| == length
    }

    function NumberOfChannels(): nat {
      |channelData|
    }
  }

  type AudioBuffer = b: PcmBuffer | b.WellFormed() witness PcmBuffer(24000, 0, [])

  // ---------------------------------------------------------------------------
  // DataView coercions and little-endian byte groups
  // ---------------------------------------------------------------------------

  const TWO16: int := 0x1_0000
  const TWO32: int := 0x1_0000_0000

  /** The ToUint16 conversion `DataView.setUint16` applies to its argument; `setInt16` stores the same 16 bits. */
  function ToUint16(x: int): (r: int)
    ensures 0 <= r < TWO16
  {
    x % TWO16
  }

  /** The ToUint32 conversion `DataView.setUint32` applies to its argument. */
  function ToUint32(x: int): (r: int)
    ensures 0 <= r < TWO32
  {
    x % TWO32
  }

  /** The ToInt32 conversion of `x | 0`, applied to an integer. */
  function ToInt32(x: int): int {
    (x + 0x8000_0000) % TWO32 - 0x8000_0000
  }

  /** The two bytes `setUint16(pos, v, true)` stores: low byte first. */
  function Le16(v: int): (r: seq<uint8>)
    requires 0 <= v < TWO16
    ensures |r| == 2
  {
    [(v % 0x100) as uint8, (v / 0x100) as uint8]
  }

  /** The four bytes `setUint32(pos, v, true)` stores: the low half, then the high half. */
  function Le32(v: int): (r: seq<uint8>)
    requires 0 <= v < TWO32
    ensures |r| == 4
  {
    Le16(v % TWO16) + Le16(v / TWO16)
  }

  // ---------------------------------------------------------------------------
  // Readers: what a WAVE consumer sees at a byte offset
  // ---------------------------------------------------------------------------

  function U16At(w: seq<uint8>, p: nat): int
    requires p + 2 <= |w|
  {
    w[p] as int + 0x100 * w[p + 1] as int
  }

  function U32At(w: seq<uint8>, p: nat): int
    requires p + 4 <= |w|
  {
    U16At(w, p) + TWO16 * U16At(w, p + 2)
  }

  /** A signed little-endian 16-bit value (two's complement). */
  function I16At(w: seq<uint8>, p: nat): int
    requires p + 2 <= |w|
  {
    var u := U16At(w, p);
    if u >= 0x8000 then u - TWO16 else u
  }

  /** The bytes of a string of 8-bit characters, such as a four-character chunk tag. */
  function Ascii(s: string): seq<uint8>
    requires forall k | 0 <= k < |s| :: s[k] as int < 0x100
  {
    seq(|s|, k requires 0 <= k < |s| => s[k] as int as uint8)
  }

  lemma Le16Reads(w: seq<uint8>, p: nat, v: int)
    requires 0 <= v < TWO16
    requires p + 2 <= |w| && w[p..p + 2] == Le16(v)
    ensures U16At(w, p) == v
  {
    assert w[p] == Le16(v)[0] && w[p + 1] == Le16(v)[1];
  }

  lemma Le32Reads(w: seq<uint8>, p: nat, v: int)
    requires 0 <= v < TWO32
    requires p + 4 <= |w| && w[p..p + 4] == Le32(v)
    ensures U32At(w, p) == v
  {
    assert w[p..p + 2] == w[p..p + 4][..2] == Le16(v % TWO16);
    assert w[p + 2..p + 4] == w[p..p + 4][2..] == Le16(v / TWO16);
    Le16Reads(w, p, v % TWO16);
    Le16Reads(w, p + 2, v / TWO16);
  }

  // ---------------------------------------------------------------------------
  // Sample quantisation
  // ---------------------------------------------------------------------------

  function Max(a: real, b: real): real { if a >= b then a else b }
  function Min(a: real, b: real): real { if a <= b then a else b }

  /** `Math.max(-1, Math.min(1, x))`. */
  function Clamp(x: real): real {
    Max(-1.0, Min(1.0, x))
  }

  lemma ClampBounds(x: real)
    ensures -1.0 <= Clamp(x) <= 1.0
    ensures -1.0 <= x <= 1.0 ==> Clamp(x) == x
  {
  }

  /** The integer part of `r`, rounding toward zero, as JavaScript's `| 0` does. */
  function Truncate(r: real): int {
    if r >= 0.0 then r.Floor else -((-r).Floor)
  }

  lemma TruncateBounds(r: real)
    ensures r >= 0.0 ==> Truncate(r) as real <= r < Truncate(r) as real + 1.0
    ensures r < 0.0 ==> Truncate(r) as real - 1.0 < r <= Truncate(r) as real
  {
  }

  /**
   * The scale the encoder applies to a clamped sample. The guard `0.5 + sample < 0`
   * holds only below -0.5, so samples in [-0.5, 0) use the positive scale.
   */
  function Scale(s: real): real {
    if 0.5 + s < 0.0 then 32768.0 else 32767.0
  }

  /** The signed 16-bit value stored for input sample `x`. */
  function Quantize(x: real): int {
    var s := Clamp(x);
    ToInt32(Truncate(s * Scale(s)))
  }

  // ---------------------------------------------------------------------------
  // The WAVE byte layout
  // ---------------------------------------------------------------------------

  const RiffTag: int := 0x46464952
  const WaveTag: int := 0x45564157
  const FmtTag: int := 0x20746d66
  const DataTag: int := 0x61746164
  const HeaderSize: nat := 44

  /** The size of the encoded file: the header plus two bytes per sample of every channel. */
  function WavLength(b: AudioBuffer): (r: nat)
    ensures r >= HeaderSize
  {
    MulMono(0, b.length, b.NumberOfChannels());
    b.length * b.NumberOfChannels() * 2 + HeaderSize
  }

  /** Bytes 0-11: the RIFF descriptor, the size of the rest of the file and the WAVE form type. */
  function RiffDescriptor(length: int): (h: seq<uint8>)
    ensures |h| == 12
  {
    Le32(RiffTag) + Le32(ToUint32(length - 8)) + Le32(WaveTag)
  }

  /** Bytes 12-35: the `fmt ` chunk of 16-bit PCM with `n` channels at `rate` frames per second. */
  function FormatChunk(rate: nat, n: nat): (h: seq<uint8>)
    ensures |h| == 24
  {
    Le32(FmtTag) + Le32(16) + Le16(1) + Le16(ToUint16(n))
    + Le32(ToUint32(rate)) + Le32(ToUint32(rate * 2 * n))
    + Le16(ToUint16(n * 2)) + Le16(16)
  }

  /** Bytes 36-43: the `data` chunk tag and the size of the sample data. */
  function DataChunkHeader(length: int): (h: seq<uint8>)
    ensures |h| == 8
  {
    Le32(DataTag) + Le32(ToUint32(length - HeaderSize))
  }

  /** The 44 header bytes: the three chunks in order. */
  function Header(b: AudioBuffer): (h: seq<uint8>) {
    RiffDescriptor(WavLength(b)) + FormatChunk(b.sampleRate, b.NumberOfChannels()) + DataChunkHeader(WavLength(b))
  }

  /**
   * The value the encoder stores for every sample, frame by frame: `Frames(b)[f][c]`
   * is the quantised sample of channel c in frame f.
   */
  function Frames(b: AudioBuffer): (q: seq<seq<int>>)
    ensures |q| == b.length
  {
    seq(b.length, f requires 0 <= f < b.length =>
      seq(b.NumberOfChannels(), c requires 0 <= c < b.NumberOfChannels() => Quantize(b.channelData[c][f])))
  }

  /** Every frame holds one value per channel. */
  predicate Rectangular(q: seq<seq<int>>, n: nat) {
    forall f | 0 <= f < |q| :: |q[f]| == n
  }

  /** The bytes of the first c values of one frame, channel after channel. */
  function ChannelBytes(frame: seq<int>, c: nat): seq<uint8>
    requires c <= |frame|
  {
    if c == 0 then [] else ChannelBytes(frame, c - 1) + Le16(ToUint16(frame[c - 1]))
  }

  /** The sample bytes of frames 0..f-1, frame after frame. */
  function DataBytes(q: seq<seq<int>>, f: nat): seq<uint8>
    requires f <= |q|
  {
    if f == 0 then [] else DataBytes(q, f - 1) + ChannelBytes(q[f - 1], |q[f - 1]|)
  }

  /** The complete file `audioBufferToWav` produces. */
  function WavFile(b: AudioBuffer): seq<uint8> {
    Header(b) + DataBytes(Frames(b), b.length)
  }

  // ---------------------------------------------------------------------------
  // Arithmetic helpers for frame offsets
  // ---------------------------------------------------------------------------

  lemma MulMono(a: nat, b: nat, n: nat)
    requires a <= b
    ensures a * n <= b * n
  {
  }

  lemma MulSucc(a: nat, n: nat)
    ensures a * n * 2 + 2 * n == (a + 1) * n * 2
  {
  }

  // ---------------------------------------------------------------------------
  // Properties of the layout
  // ---------------------------------------------------------------------------

  lemma FramesAt(b: AudioBuffer, f: nat, c: nat)
    requires f < b.length && c < b.NumberOfChannels()
    ensures |Frames(b)[f]| == b.NumberOfChannels() && Frames(b)[f][c] == Quantize(b.channelData[c][f])
  {
  }

  lemma FramesRectangular(b: AudioBuffer)
    ensures Rectangular(Frames(b), b.NumberOfChannels())
  {
  }

  lemma {:induction false} ChannelBytesSize(frame: seq<int>, c: nat)
    requires c <= |frame|
    ensures |ChannelBytes(frame, c)| == 2 * c
  {
    if c > 0 { ChannelBytesSize(frame, c - 1); }
  }

  lemma {:induction false} DataBytesSize(q: seq<seq<int>>, n: nat, f: nat)
    requires Rectangular(q, n) && f <= |q|
    ensures |DataBytes(q, f)| == f * n * 2
  {
    if f > 0 {
      DataBytesSize(q, n, f - 1);
      ChannelBytesSize(q[f - 1], n);
      MulSucc(f - 1, n);
    }
  }

  /** The file is exactly `44 + length * channels * 2` bytes long. */
  lemma WavFileSize(b: AudioBuffer)
    ensures |WavFile(b)| == WavLength(b) == HeaderSize + b.length * b.NumberOfChannels() * 2
  {
    FramesRectangular(b);
    DataBytesSize(Frames(b), b.NumberOfChannels(), b.length);
  }

  lemma HeaderIsPrefix(b: AudioBuffer)
    ensures |Header(b)| == HeaderSize
    ensures WavFile(b)[..HeaderSize] == Header(b)
  {
  }

  /** The four chunk tags stand at offsets 0, 8, 12 and 36. */
  lemma WavTags(b: AudioBuffer)
    ensures |WavFile(b)| >= HeaderSize
    ensures WavFile(b)[0..4] == Ascii("RIFF")
    ensures WavFile(b)[8..12] == Ascii("WAVE")
    ensures WavFile(b)[12..16] == Ascii("fmt ")
    ensures WavFile(b)[36..40] == Ascii("data")
  {
    var w, h := WavFile(b), Header(b);
    HeaderIsPrefix(b);
    assert w[0..4] == h[0..4] == Le32(RiffTag);
    assert w[8..12] == h[8..12] == Le32(WaveTag);
    assert w[12..16] == h[12..16] == Le32(FmtTag);
    assert w[36..40] == h[36..40] == Le32(DataTag);
  }

  /** The two size fields: the file size less 8 at offset 4, the data size at offset 40. */
  lemma WavSizeFields(b: AudioBuffer)
    ensures |WavFile(b)| >= HeaderSize
    ensures U32At(WavFile(b), 4) == ToUint32(|WavFile(b)| - 8)
    ensures U32At(WavFile(b), 40) == ToUint32(|WavFile(b)| - HeaderSize)
    ensures U32At(WavFile(b), 40) == ToUint32(b.length * b.NumberOfChannels() * 2)
  {
    var w, h := WavFile(b), Header(b);
    WavFileSize(b);
    HeaderIsPrefix(b);
    assert w[4..8] == h[4..8] == Le32(ToUint32(WavLength(b) - 8));
    assert w[40..44] == h[40..44] == Le32(ToUint32(WavLength(b) - HeaderSize));
    Le32Reads(w, 4, ToUint32(WavLength(b) - 8));
    Le32Reads(w, 40, ToUint32(WavLength(b) - HeaderSize));
  }

  /** The fmt chunk: length 16, PCM, channel count, rate, byte rate, block align, 16 bits. */
  lemma WavFormatFields(b: AudioBuffer)
    ensures |WavFile(b)| >= HeaderSize
    ensures U32At(WavFile(b), 16) == 16
    ensures U16At(WavFile(b), 20) == 1
    ensures U16At(WavFile(b), 22) == ToUint16(b.NumberOfChannels())
    ensures U32At(WavFile(b), 24) == ToUint32(b.sampleRate)
    ensures U32At(WavFile(b), 28) == ToUint32(b.sampleRate * 2 * b.NumberOfChannels())
    ensures U16At(WavFile(b), 32) == ToUint16(b.NumberOfChannels() * 2)
    ensures U16At(WavFile(b), 34) == 16
  {
    var w, h := WavFile(b), Header(b);
    var n := b.NumberOfChannels();
    HeaderIsPrefix(b);
    assert w[16..20] == h[16..20] == Le32(16);
    assert w[20..22] == h[20..22] == Le16(1);
    assert w[22..24] == h[22..24] == Le16(ToUint16(n));
    assert w[24..28] == h[24..28] == Le32(ToUint32(b.sampleRate));
    assert w[28..32] == h[28..32] == Le32(ToUint32(b.sampleRate * 2 * n));
    assert w[32..34] == h[32..34] == Le16(ToUint16(n * 2));
    assert w[34..36] == h[34..36] == Le16(16);
    Le32Reads(w, 16, 16);
    Le16Reads(w, 20, 1);
    Le16Reads(w, 22, ToUint16(n));
    Le32Reads(w, 24, ToUint32(b.sampleRate));
    Le32Reads(w, 28, ToUint32(b.sampleRate * 2 * n));
    Le16Reads(w, 32, ToUint16(n * 2));
    Le16Reads(w, 34, 16);
  }

  // ---------------------------------------------------------------------------
  // The sample data
  // ---------------------------------------------------------------------------

  /** Every stored value is a signed 16-bit integer. */
  lemma QuantizeRange(x: real)
    ensures -0x8000 <= Quantize(x) <= 0x7FFF
  {
    var s := Clamp(x);
    var t := Truncate(s * Scale(s));
    ClampBounds(x);
    TruncateBounds(s * Scale(s));
    assert -0x8000 <= t <= 0x7FFF;
  }

  /**
   * Below -0.5 the clamped sample is scaled by 32768, everywhere else by 32767,
   * and the product is truncated toward zero.
   */
  lemma QuantizeTruncates(x: real)
    ensures var s := Clamp(x);
      var q := Quantize(x) as real;
      && (s >= 0.0 ==> q <= s * Scale(s) < q + 1.0)
      && (s < 0.0 ==> q - 1.0 < s * Scale(s) <= q)
    ensures Clamp(x) < -0.5 ==> Scale(Clamp(x)) == 32768.0
    ensures Clamp(x) >= -0.5 ==> Scale(Clamp(x)) == 32767.0
  {
    QuantizeRange(x);
  }

  /** A quarter of full negative scale is stored as -8191, not -8192: the guard uses the positive scale there. */
  lemma QuantizeQuarterNegative()
    ensures Quantize(-0.25) == -8191
  {
    assert Clamp(-0.25) == -0.25;
    assert (-0.25) * Scale(-0.25) == -8191.75;
    assert (8191.75).Floor == 8191;
  }

  /** Reading a stored value back: the two scales have disjoint ranges, split at -16384. */
  function Dequantize(q: int): real {
    if q <= -16384 then q as real / 32768.0 else q as real / 32767.0
  }

  /** Every clamped sample is recovered from its stored value to within 1/32767. */
  lemma DequantizeQuantize(x: real)
    ensures var d := Dequantize(Quantize(x)) - Clamp(x);
      -1.0 / 32767.0 < d < 1.0 / 32767.0
  {
    var s := Clamp(x);
    var q := Quantize(x);
    QuantizeTruncates(x);
    if s < -0.5 {
      assert q <= -16384;
      assert Dequantize(q) - s == (q as real - s * 32768.0) / 32768.0;
    } else {
      assert q > -16384;
      assert Dequantize(q) - s == (q as real - s * 32767.0) / 32767.0;
    }
  }

  lemma {:induction false} ChannelBytesAt(frame: seq<int>, n: nat, c: nat)
    requires c < n <= |frame|
    ensures |ChannelBytes(frame, n)| == 2 * n
    ensures ChannelBytes(frame, n)[2 * c..2 * c + 2] == Le16(ToUint16(frame[c]))
  {
    ChannelBytesSize(frame, n);
    ChannelBytesSize(frame, n - 1);
    if c < n - 1 {
      ChannelBytesAt(frame, n - 1, c);
    }
  }

  /** A two-byte slice that lies in the left part of a concatenation. */
  lemma SliceInLeft(x: seq<uint8>, y: seq<uint8>, k: nat)
    requires k + 2 <= |x|
    ensures (x + y)[k..k + 2] == x[k..k + 2]
  {
  }

  /** A two-byte slice that lies in the right part of a concatenation. */
  lemma SliceInRight(x: seq<uint8>, y: seq<uint8>, k: nat, j: nat)
    requires k == |x| + j && j + 2 <= |y|
    ensures (x + y)[k..k + 2] == y[j..j + 2]
  {
  }

  /** The bytes of frame f sit right after the data of the frames before f. */
  lemma {:induction false} FrameBytesAt(q: seq<seq<int>>, frames: nat, f: nat, j: nat)
    requires f < frames <= |q| && j + 2 <= |ChannelBytes(q[f], |q[f]|)|
    ensures |DataBytes(q, f)| + j + 2 <= |DataBytes(q, frames)|
    ensures DataBytes(q, frames)[|DataBytes(q, f)| + j..|DataBytes(q, f)| + j + 2] == ChannelBytes(q[f], |q[f]|)[j..j + 2]
  {
    var prev, last := DataBytes(q, frames - 1), ChannelBytes(q[frames - 1], |q[frames - 1]|);
    assert DataBytes(q, frames) == prev + last;
    if f == frames - 1 {
      SliceInRight(prev, last, |prev| + j, j);
    } else {
      FrameBytesAt(q, frames - 1, f, j);
      SliceInLeft(prev, last, |DataBytes(q, f)| + j);
    }
  }

  /** Value (f, c) of a table of n-value frames is stored at byte 2 * (f * n + c). */
  lemma DataBytesAt(q: seq<seq<int>>, n: nat, frames: nat, f: nat, c: nat)
    requires Rectangular(q, n) && f < frames <= |q| && c < n
    ensures |DataBytes(q, frames)| == frames * n * 2
    ensures 2 * (f * n + c) + 2 <= |DataBytes(q, frames)|
    ensures DataBytes(q, frames)[2 * (f * n + c)..2 * (f * n + c) + 2] == Le16(ToUint16(q[f][c]))
  {
    ChannelBytesAt(q[f], n, c);
    FrameBytesAt(q, frames, f, 2 * c);
    DataBytesSize(q, n, f);
    DataBytesSize(q, n, frames);
  }

  /**
   * The data is interleaved frame by frame: the signed 16-bit value at byte
   * `44 + 2 * (f * channels + c)` is the quantised sample of channel c in frame f.
   */
  lemma WavSampleAt(b: AudioBuffer, f: nat, c: nat)
    requires f < b.length && c < b.NumberOfChannels()
    ensures HeaderSize + 2 * (f * b.NumberOfChannels() + c) + 2 <= |WavFile(b)|
    ensures I16At(WavFile(b), HeaderSize + 2 * (f * b.NumberOfChannels() + c)) == Quantize(b.channelData[c][f])
  {
    var n := b.NumberOfChannels();
    var h, d := Header(b), DataBytes(Frames(b), b.length);
    var k := 2 * (f * n + c);
    var q := Quantize(b.channelData[c][f]);
    FramesRectangular(b);
    FramesAt(b, f, c);
    DataBytesAt(Frames(b), n, b.length, f, c);
    HeaderIsPrefix(b);
    assert WavFile(b)[HeaderSize + k..HeaderSize + k + 2] == d[k..k + 2] by {
      assert WavFile(b) == h + d;
      SliceAfterPrefix(h, d, k);
    }
    QuantizeRange(b.channelData[c][f]);
    I16Reads(WavFile(b), HeaderSize + k, q);
  }

  lemma I16Reads(w: seq<uint8>, p: nat, q: int)
    requires -0x8000 <= q <= 0x7FFF
    requires p + 2 <= |w| && w[p..p + 2] == Le16(ToUint16(q))
    ensures I16At(w, p) == q
  {
    Le16Reads(w, p, ToUint16(q));
  }

  lemma SliceAfterPrefix(h: seq<uint8>, d: seq<uint8>, k: nat)
    requires k + 2 <= |d|
    ensures (h + d)[|h| + k..|h| + k + 2] == d[k..k + 2]
  {
  }
}
