/**
 * `audioBufferToWav`: writes the WAVE file into a fresh byte buffer through a
 * moving cursor, header first, then the samples frame by frame.
 */
module WavEncoder {
  import opened Wav

  /** `setUint16`: stores `data` as two little-endian bytes at `pos` and advances the cursor. */
  method SetUint16(view: array<uint8>, pos: nat, data: int) returns (next: nat)
    requires pos + 2 <= view.Length
    modifies view
    ensures next == pos + 2
    ensures view[..next] == old(view[..pos]) + Le16(ToUint16(data))
    ensures forall k :: next <= k < view.Length ==> view[k] == old(view[k])
  {
    var bytes := Le16(ToUint16(data));
    view[pos] := bytes[0];
    view[pos + 1] := bytes[1];
    next := pos + 2;
    assert view[..next] == view[..pos] + bytes;
  }

  /** `setUint32`: stores `data` as four little-endian bytes at `pos` and advances the cursor. */
  method SetUint32(view: array<uint8>, pos: nat, data: int) returns (next: nat)
    requires pos + 4 <= view.Length
    modifies view
    ensures next == pos + 4
    ensures view[..next] == old(view[..pos]) + Le32(ToUint32(data))
    ensures forall k :: next <= k < view.Length ==> view[k] == old(view[k])
  {
    var bytes := Le32(ToUint32(data));
    view[pos] := bytes[0];
    view[pos + 1] := bytes[1];
    view[pos + 2] := bytes[2];
    view[pos + 3] := bytes[3];
    next := pos + 4;
    assert view[..next] == view[..pos] + bytes;
  }

  /** `view.setInt16(pos, sample, true)`: stores the two's-complement bits of `sample`, the same 16 bits as `ToUint16`. */
  method SetInt16(view: array<uint8>, pos: nat, sample: int)
    requires pos + 2 <= view.Length
    modifies view
    ensures view[..pos + 2] == old(view[..pos]) + Le16(ToUint16(sample))
    ensures forall k :: pos + 2 <= k < view.Length ==> view[k] == old(view[k])
  {
    var bytes := Le16(ToUint16(sample));
    view[pos] := bytes[0];
    view[pos + 1] := bytes[1];
    assert view[..pos + 2] == view[..pos] + bytes;
  }

  lemma ConcatAssoc(a: seq<uint8>, b: seq<uint8>, c: seq<uint8>)
    ensures (a + b) + c == a + (b + c)
  {
  }

  /** The data written so far never outgrows the data of the whole table, and reaches its size only when complete. */
  lemma {:induction false} DataBytesBelow(q: seq<seq<int>>, f: nat)
    requires f <= |q|
    ensures |DataBytes(q, f)| <= |DataBytes(q, |q|)|
    ensures |DataBytes(q, f)| == |DataBytes(q, |q|)| ==> DataBytes(q, f) == DataBytes(q, |q|)
    decreases |q| - f
  {
    if f < |q| {
      DataBytesBelow(q, f + 1);
      if |DataBytes(q, f)| == |DataBytes(q, |q|)| {
        ChannelBytesSize(q[f], |q[f]|);
        assert DataBytes(q, f + 1) == DataBytes(q, f) + ChannelBytes(q[f], |q[f]|);
        assert |DataBytes(q, f + 1)| == |DataBytes(q, f)|;
      }
    }
  }

  /** App.tsx:595-598: the RIFF descriptor, from the cursor on. */
  method WriteRiffDescriptor(view: array<uint8>, pos: nat, length: int) returns (next: nat)
    requires pos + 12 <= view.Length
    modifies view
    ensures next == pos + 12
    ensures view[..next] == old(view[..pos]) + RiffDescriptor(length)
    ensures forall k :: next <= k < view.Length ==> view[k] == old(view[k])
  {
    ghost var w := view[..pos];
    next := SetUint32(view, pos, RiffTag);
    assert view[..next] == w + Le32(RiffTag);
    next := SetUint32(view, next, length - 8);
    assert view[..next] == w + Le32(RiffTag) + Le32(ToUint32(length - 8));
    next := SetUint32(view, next, WaveTag);
  }

  /** App.tsx:600-603: the chunk tag and size, the PCM format code and the channel count. */
  method WriteFormatCode(view: array<uint8>, pos: nat, numOfChan: nat) returns (next: nat)
    requires pos + 12 <= view.Length
    modifies view
    ensures next == pos + 12
    ensures view[..next] == old(view[..pos]) + (Le32(FmtTag) + Le32(16) + Le16(1) + Le16(ToUint16(numOfChan)))
    ensures forall k :: next <= k < view.Length ==> view[k] == old(view[k])
  {
    ghost var w := view[..pos];
    next := SetUint32(view, pos, FmtTag);
    next := SetUint32(view, next, 16);
    assert view[..next] == w + Le32(FmtTag) + Le32(16);
    next := SetUint16(view, next, 1);
    next := SetUint16(view, next, numOfChan);
  }

  /** App.tsx:604-607: the sample rate, the byte rate, the block alignment and the sample width. */
  method WriteFormatRates(view: array<uint8>, pos: nat, rate: nat, numOfChan: nat) returns (next: nat)
    requires pos + 12 <= view.Length
    modifies view
    ensures next == pos + 12
    ensures view[..next] == old(view[..pos]) + (Le32(ToUint32(rate)) + Le32(ToUint32(rate * 2 * numOfChan))
                                                 + Le16(ToUint16(numOfChan * 2)) + Le16(16))
    ensures forall k :: next <= k < view.Length ==> view[k] == old(view[k])
  {
    ghost var w := view[..pos];
    next := SetUint32(view, pos, rate);
    next := SetUint32(view, next, rate * 2 * numOfChan);
    assert view[..next] == w + Le32(ToUint32(rate)) + Le32(ToUint32(rate * 2 * numOfChan));
    next := SetUint16(view, next, numOfChan * 2);
    next := SetUint16(view, next, 16);
  }

  /** App.tsx:600-607: the format chunk, from the cursor on. */
  method WriteFormatChunk(view: array<uint8>, pos: nat, rate: nat, numOfChan: nat) returns (next: nat)
    requires pos + 24 <= view.Length
    modifies view
    ensures next == pos + 24
    ensures view[..next] == old(view[..pos]) + FormatChunk(rate, numOfChan)
    ensures forall k :: next <= k < view.Length ==> view[k] == old(view[k])
  {
    ghost var w := view[..pos];
    next := WriteFormatCode(view, pos, numOfChan);
    next := WriteFormatRates(view, next, rate, numOfChan);
    assert view[..next] == w + FormatChunk(rate, numOfChan);
  }

  /** App.tsx:609-610: the data chunk's tag and size, written at offset 36, where the size is `length - pos - 4`. */
  method WriteDataChunkHeader(view: array<uint8>, pos: nat, length: int) returns (next: nat)
    requires pos == HeaderSize - 8 && HeaderSize <= view.Length
    modifies view
    ensures next == HeaderSize
    ensures view[..next] == old(view[..pos]) + DataChunkHeader(length)
    ensures forall k :: next <= k < view.Length ==> view[k] == old(view[k])
  {
    ghost var w := view[..pos];
    next := SetUint32(view, pos, DataTag);
    assert view[..next] == w + Le32(DataTag);
    next := SetUint32(view, next, length - next - 4);
  }

  /** App.tsx:595-610: the 44 header bytes, written through the cursor from offset 0. */
  method WriteHeader(view: array<uint8>, buffer: AudioBuffer, numOfChan: nat, length: nat) returns (pos: nat)
    requires length == view.Length >= HeaderSize
    modifies view
    ensures pos == HeaderSize
    ensures view[..pos] == RiffDescriptor(length) + FormatChunk(buffer.sampleRate, numOfChan) + DataChunkHeader(length)
    ensures forall k :: pos <= k < view.Length ==> view[k] == old(view[k])
  {
    pos := WriteRiffDescriptor(view, 0, length);
    ghost var riff := view[..pos];
    assert riff == RiffDescriptor(length);
    pos := WriteFormatChunk(view, pos, buffer.sampleRate, numOfChan);
    ghost var format := view[..pos];
    assert format == riff + FormatChunk(buffer.sampleRate, numOfChan);
    pos := WriteDataChunkHeader(view, pos, length);
  }

  /** App.tsx:618-619: clamps one sample and scales it to a signed 16-bit value. */
  method ScaleSample(x: real) returns (scaled: int)
    ensures scaled == Quantize(x)
    ensures -0x8000 <= scaled < 0x8000
  {
    var sample := Max(-1.0, Min(1.0, x));
    scaled := ToInt32(Truncate(if 0.5 + sample < 0.0 then sample * 32768.0 else sample * 32767.0));
    QuantizeRange(x);
  }

  /** App.tsx:617-622: the samples of every channel for frame `offset`, channel by channel. */
  method WriteFrame(view: array<uint8>, buffer: AudioBuffer, channels: seq<seq<real>>, offset: nat, start: nat)
    returns (pos: nat)
    requires channels == buffer.channelData && offset < buffer.length
    requires start + 2 * buffer.NumberOfChannels() <= view.Length
    modifies view
    ensures pos == start + 2 * buffer.NumberOfChannels()
    ensures view[..pos] == old(view[..start]) + ChannelBytes(Frames(buffer)[offset], buffer.NumberOfChannels())
    ensures forall k :: pos <= k < view.Length ==> view[k] == old(view[k])
  {
    var numOfChan := buffer.NumberOfChannels();
    ghost var frame := Frames(buffer)[offset];
    ghost var written := view[..start];
    pos := start;
    var i := 0;
    while i < numOfChan
      invariant 0 <= i <= numOfChan == |frame|
      invariant pos == start + 2 * i
      invariant view[..pos] == written + ChannelBytes(frame, i)
      invariant forall k :: pos <= k < view.Length ==> view[k] == old(view[k])
    {
      var scaled := ScaleSample(channels[i][offset]);
      assert ChannelBytes(frame, i + 1) == ChannelBytes(frame, i) + Le16(ToUint16(scaled)) by {
        FramesAt(buffer, offset, i);
      }
      SetInt16(view, pos, scaled);
      pos := pos + 2;
      i := i + 1;
    }
  }

  /** One more frame: the data grows by that frame's bytes and stays within the whole data. */
  lemma FrameAppended(q: seq<seq<int>>, n: nat, header: seq<uint8>, f: nat)
    requires Rectangular(q, n) && f < |q|
    ensures header + DataBytes(q, f + 1) == (header + DataBytes(q, f)) + ChannelBytes(q[f], n)
    ensures |DataBytes(q, f + 1)| == |DataBytes(q, f)| + 2 * n <= |DataBytes(q, |q|)|
  {
    ChannelBytesSize(q[f], n);
    DataBytesBelow(q, f + 1);
    ConcatAssoc(header, DataBytes(q, f), ChannelBytes(q[f], n));
  }

  /** App.tsx:615-624: every frame after the header, until the cursor reaches the end of the buffer. */
  method WriteSamples(view: array<uint8>, buffer: AudioBuffer, channels: seq<seq<real>>, start: nat, length: nat)
    returns (pos: nat)
    requires channels == buffer.channelData
    requires length == view.Length == start + |DataBytes(Frames(buffer), buffer.length)|
    modifies view
    ensures pos == length
    ensures view[..pos] == old(view[..start]) + DataBytes(Frames(buffer), buffer.length)
  {
    ghost var q := Frames(buffer);
    ghost var header := view[..start];
    FramesRectangular(buffer);
    var offset: nat := 0;
    pos := start;
    while pos < length
      invariant offset <= buffer.length
      invariant pos == start + |DataBytes(q, offset)| <= length
      invariant view[..pos] == header + DataBytes(q, offset)
      decreases buffer.length - offset
    {
      assert offset < buffer.length by {
        if offset == buffer.length { assert false; }
      }
      FrameAppended(q, buffer.NumberOfChannels(), header, offset);
      pos := WriteFrame(view, buffer, channels, offset, pos);
      offset := offset + 1;
    }
    DataBytesBelow(q, offset);
  }

  /** Builds the WAVE file for `buffer`; the returned bytes are the contents of the Blob. */
  method AudioBufferToWav(buffer: AudioBuffer) returns (blob: seq<uint8>)
    ensures blob == WavFile(buffer)
  {
    var numOfChan := buffer.NumberOfChannels();
    var length := buffer.length * numOfChan * 2 + 44;
    assert length == WavLength(buffer);
    var view := new uint8[length];
    var pos: nat := 0;

    pos := WriteHeader(view, buffer, numOfChan, length);
    ghost var header := view[..pos];
    assert header == Header(buffer);

    var channels := buffer.channelData;
    assert length == pos + |DataBytes(Frames(buffer), buffer.length)| by {
      FramesRectangular(buffer);
      DataBytesSize(Frames(buffer), numOfChan, buffer.length);
    }
    pos := WriteSamples(view, buffer, channels, pos, length);
    assert view[..] == view[..pos];
    blob := view[..];
  }
}
