/**
 * The placeholder audio encoder of the browser client
 * (`createPlaceholderWavBlob`): a mono, 16-bit, 44100 Hz PCM file in the
 * RIFF WAVE container of the Multimedia Programming Interface and Data
 * Specifications 1.0 (a `RIFF` header, a `fmt ` chunk for format tag 1,
 * then a `data` chunk), built in a zero-filled buffer through `DataView`
 * writes at fixed offsets.
 *
 * The sample values come from a floating-point sine; here they are an
 * input `tone` that gives the 16-bit sample for each index.
 */
module WavEncoder {
  import opened ByteCodec

  const SampleRate: nat := 44100
  const NumChannels: nat := 1
  const BitsPerSample: nat := 16
  /** RIFF header (12 bytes) + `fmt ` chunk (24 bytes) + `data` chunk header (8 bytes). */
  const HeaderSize: nat := 44
  const FmtChunkSize: nat := 16
  const PcmFormat: nat := 1

  /** The chunk tags as big-endian 32-bit numbers. */
  const RiffTag: nat := 0x52494646
  const WaveTag: nat := 0x57415645
  const FmtTag: nat := 0x666d7420
  const DataTag: nat := 0x64617461

  function NumSamples(duration: nat): nat
  {
    SampleRate * duration
  }

  /** Bytes of sample data: one 16-bit sample per channel per frame. */
  function DataSize(duration: nat): nat
  {
    NumSamples(duration) * NumChannels * 2
  }

  // ---------------------------------------------------------------------
  // The file as a value
  // ---------------------------------------------------------------------

  /** The RIFF header (12 bytes) and its fields, as a value. */
  function RiffHeader(duration: nat): (r: seq<Byte>)
    ensures |r| == 12
  {
    Uint32BE(RiffTag) + Uint32LE(36 + DataSize(duration)) + Uint32BE(WaveTag)
  }

  /** The `fmt ` chunk (24 bytes) for mono 16-bit PCM at 44100 Hz. */
  function FmtChunk(): (r: seq<Byte>)
    ensures |r| == 24
  {
    Uint32BE(FmtTag) + Uint32LE(FmtChunkSize) + Uint16LE(PcmFormat)
    + Uint16LE(NumChannels) + Uint32LE(SampleRate)
    + Uint32LE(SampleRate * NumChannels * 2) + Uint16LE(NumChannels * 2)
    + Uint16LE(BitsPerSample)
  }

  /** The `data` chunk header (8 bytes): its tag and its size. */
  function DataChunkHeader(duration: nat): (r: seq<Byte>)
    ensures |r| == 8
  {
    Uint32BE(DataTag) + Uint32LE(DataSize(duration))
  }

  /** The 44 header bytes: the RIFF header, the `fmt ` chunk and the
      `data` chunk header. */
  function Header(duration: nat): (h: seq<Byte>)
    ensures |h| == HeaderSize
  {
    RiffHeader(duration) + FmtChunk() + DataChunkHeader(duration)
  }

  /** The data region for the first `n` samples: sample `i` in bytes
      `2*i` and `2*i + 1`, little-endian two's complement. */
  function SampleBytes(tone: nat -> Int16, n: nat): (d: seq<Byte>)
    ensures |d| == 2 * n
  {
    seq(2 * n, j requires 0 <= j < 2 * n => Int16LE(tone(j / 2))[j % 2])
  }

  /** The whole file `createPlaceholderWavBlob(duration)` produces. */
  function WavFile(duration: nat, tone: nat -> Int16): seq<Byte>
  {
    Header(duration) + SampleBytes(tone, NumSamples(duration))
  }

  // ---------------------------------------------------------------------
  // The encoder, as the source runs it: DataView writes into a buffer
  // ---------------------------------------------------------------------

  /** `view.setUint32(offset, value, littleEndian)`: four bytes at `offset`,
      nothing else changes. */
  method SetUint32(view: array<Byte>, offset: nat, value: int, littleEndian: bool)
    requires offset + 4 <= view.Length
    modifies view
    ensures view[..offset] == old(view[..offset])
    ensures view[offset..offset + 4] == if littleEndian then Uint32LE(value) else Uint32BE(value)
    ensures forall k :: offset + 4 <= k < view.Length ==> view[k] == old(view[k])
  {
    var bytes := if littleEndian then Uint32LE(value) else Uint32BE(value);
    view[offset], view[offset + 1], view[offset + 2], view[offset + 3]
      := bytes[0], bytes[1], bytes[2], bytes[3];
  }

  /** `view.setUint16(offset, value, true)` */
  method SetUint16(view: array<Byte>, offset: nat, value: int)
    requires offset + 2 <= view.Length
    modifies view
    ensures view[..offset] == old(view[..offset])
    ensures view[offset..offset + 2] == Uint16LE(value)
    ensures forall k :: offset + 2 <= k < view.Length ==> view[k] == old(view[k])
  {
    var bytes := Uint16LE(value);
    view[offset], view[offset + 1] := bytes[0], bytes[1];
  }

  /** `view.setInt16(offset, value, true)` */
  method SetInt16(view: array<Byte>, offset: nat, value: Int16)
    requires offset + 2 <= view.Length
    modifies view
    ensures view[..offset] == old(view[..offset])
    ensures view[offset..offset + 2] == Int16LE(value)
    ensures forall k :: offset + 2 <= k < view.Length ==> view[k] == old(view[k])
  {
    var bytes := Int16LE(value);
    view[offset], view[offset + 1] := bytes[0], bytes[1];
  }

  /** Writing `bytes` right after a prefix extends that prefix. */
  lemma ExtendPrefix(s: seq<Byte>, offset: nat, n: nat, prefix: seq<Byte>, bytes: seq<Byte>)
    requires offset + n <= |s| && |prefix| == offset && |bytes| == n
    requires s[..offset] == prefix && s[offset..offset + n] == bytes
    ensures s[..offset + n] == prefix + bytes
  {
    assert s[..offset + n] == s[..offset] + s[offset..offset + n];
  }

  /** The RIFF header writes (offsets 0 to 11); the rest is left as it was. */
  method WriteRiffHeader(view: array<Byte>, duration: nat)
    requires view.Length == HeaderSize + DataSize(duration)
    modifies view
    ensures view[..12] == RiffHeader(duration)
    ensures forall k :: 12 <= k < view.Length ==> view[k] == old(view[k])
  {
    var dataSize := DataSize(duration);
    SetUint32(view, 0, 0x52494646, false); // "RIFF"
    SetUint32(view, 4, 36 + dataSize, true);
    ExtendPrefix(view[..], 4, 4, Uint32BE(RiffTag), Uint32LE(36 + dataSize));
    SetUint32(view, 8, 0x57415645, false); // "WAVE"
    ExtendPrefix(view[..], 8, 4, Uint32BE(RiffTag) + Uint32LE(36 + dataSize), Uint32BE(WaveTag));
  }

  /** The first half of the `fmt ` sub-chunk writes (offsets 12 to 23):
      tag, sub-chunk size, audio format and channel count. */
  method WriteFmtFormat(view: array<Byte>)
    requires view.Length >= HeaderSize
    modifies view
    ensures view[..12] == old(view[..12])
    ensures view[12..24] == Uint32BE(FmtTag) + Uint32LE(FmtChunkSize) + Uint16LE(PcmFormat)
                            + Uint16LE(NumChannels)
    ensures forall k :: 24 <= k < view.Length ==> view[k] == old(view[k])
  {
    ghost var h: seq<Byte> := view[..12];
    SetUint32(view, 12, 0x666d7420, false); // "fmt "
    ExtendPrefix(view[..], 12, 4, h, Uint32BE(FmtTag));
    h := h + Uint32BE(FmtTag);
    SetUint32(view, 16, 16, true); // sub-chunk size
    ExtendPrefix(view[..], 16, 4, h, Uint32LE(16));
    h := h + Uint32LE(16);
    SetUint16(view, 20, 1); // audio format: PCM
    ExtendPrefix(view[..], 20, 2, h, Uint16LE(1));
    h := h + Uint16LE(1);
    SetUint16(view, 22, NumChannels);
    ExtendPrefix(view[..], 22, 2, h, Uint16LE(NumChannels));
    h := h + Uint16LE(NumChannels);
    assert view[..24] == h;
    assert view[..24][12..24] == view[12..24];
  }

  /** The second half of the `fmt ` sub-chunk writes (offsets 24 to 35):
      sample rate, byte rate, block align and bits per sample. */
  method WriteFmtRates(view: array<Byte>)
    requires view.Length >= HeaderSize
    modifies view
    ensures view[..24] == old(view[..24])
    ensures view[24..36] == Uint32LE(SampleRate) + Uint32LE(SampleRate * NumChannels * 2)
                            + Uint16LE(NumChannels * 2) + Uint16LE(BitsPerSample)
    ensures forall k :: 36 <= k < view.Length ==> view[k] == old(view[k])
  {
    ghost var h: seq<Byte> := view[..24];
    SetUint32(view, 24, SampleRate, true);
    ExtendPrefix(view[..], 24, 4, h, Uint32LE(SampleRate));
    h := h + Uint32LE(SampleRate);
    SetUint32(view, 28, SampleRate * NumChannels * 2, true); // byte rate
    ExtendPrefix(view[..], 28, 4, h, Uint32LE(SampleRate * NumChannels * 2));
    h := h + Uint32LE(SampleRate * NumChannels * 2);
    SetUint16(view, 32, NumChannels * 2); // block align
    ExtendPrefix(view[..], 32, 2, h, Uint16LE(NumChannels * 2));
    h := h + Uint16LE(NumChannels * 2);
    SetUint16(view, 34, 16); // bits per sample
    ExtendPrefix(view[..], 34, 2, h, Uint16LE(16));
    h := h + Uint16LE(16);
    assert view[..36] == h;
    assert view[..36][24..36] == view[24..36];
  }

  /** The `fmt ` sub-chunk writes (offsets 12 to 35); everything else is
      left as it was. */
  method WriteFmtChunk(view: array<Byte>)
    requires view.Length >= HeaderSize
    modifies view
    ensures view[..12] == old(view[..12])
    ensures view[12..36] == FmtChunk()
    ensures forall k :: 36 <= k < view.Length ==> view[k] == old(view[k])
  {
    WriteFmtFormat(view);
    assert view[..24][..12] == view[..12];
    WriteFmtRates(view);
    assert view[..24][..12] == view[..12];
    assert view[12..36] == view[12..24] + view[24..36];
  }

  /** The `data` sub-chunk header writes (offsets 36 to 43). */
  method WriteDataChunkHeader(view: array<Byte>, duration: nat)
    requires view.Length == HeaderSize + DataSize(duration)
    modifies view
    ensures view[..36] == old(view[..36])
    ensures view[36..44] == DataChunkHeader(duration)
    ensures forall k :: 44 <= k < view.Length ==> view[k] == old(view[k])
  {
    SetUint32(view, 36, 0x64617461, false); // "data"
    SetUint32(view, 40, DataSize(duration), true);
    assert view[..40][..36] == view[..36];
    assert view[36..44] == view[36..40] + view[40..44];
  }

  /** All header writes of `createPlaceholderWavBlob` (offsets 0 to 43);
      the data region is left as it was. */
  method WriteHeader(view: array<Byte>, duration: nat)
    requires view.Length == HeaderSize + DataSize(duration)
    modifies view
    ensures view[..HeaderSize] == Header(duration)
    ensures forall k :: HeaderSize <= k < view.Length ==> view[k] == old(view[k])
  {
    WriteRiffHeader(view, duration);
    WriteFmtChunk(view);
    ExtendPrefix(view[..], 12, 24, RiffHeader(duration), FmtChunk());
    WriteDataChunkHeader(view, duration);
    ExtendPrefix(view[..], 36, 8, RiffHeader(duration) + FmtChunk(), DataChunkHeader(duration));
  }

  /** Sample `i` takes the two bytes after the first `i` samples. */
  lemma SampleBytesStep(tone: nat -> Int16, n: nat, i: nat)
    requires i < n
    ensures SampleBytes(tone, n)[..2 * i + 2] == SampleBytes(tone, n)[..2 * i] + Int16LE(tone(i))
  {
    var d := SampleBytes(tone, n);
    assert d[2 * i] == Int16LE(tone(i))[0];
    assert d[2 * i + 1] == Int16LE(tone(i))[1];
  }

  /** The sample loop of `createPlaceholderWavBlob`: sample `i` written
      with `setInt16` at offset `44 + 2*i`; the header is left as it was. */
  method WriteSamples(view: array<Byte>, tone: nat -> Int16, numSamples: nat)
    requires view.Length == HeaderSize + 2 * numSamples
    modifies view
    ensures view[..HeaderSize] == old(view[..HeaderSize])
    ensures view[..] == old(view[..HeaderSize]) + SampleBytes(tone, numSamples)
  {
    ghost var h := view[..HeaderSize];
    ghost var samples := SampleBytes(tone, numSamples);
    var offset := HeaderSize;
    var i := 0;
    while i < numSamples
      invariant 0 <= i <= numSamples
      invariant offset == HeaderSize + 2 * i
      invariant view[..offset] == h + samples[..2 * i]
    {
      SetInt16(view, offset, tone(i));
      ExtendPrefix(view[..], offset, 2, h + samples[..2 * i], Int16LE(tone(i)));
      SampleBytesStep(tone, numSamples, i);
      offset := offset + 2;
      i := i + 1;
    }
    assert view[..] == view[..offset];
    assert samples[..2 * i] == samples;
    assert view[..HeaderSize] == view[..offset][..HeaderSize];
  }

  /** `createPlaceholderWavBlob(duration)`, before it is wrapped in a Blob:
      the buffer holds exactly the header followed by every sample. */
  method CreatePlaceholderWav(duration: nat, tone: nat -> Int16) returns (buffer: array<Byte>)
    ensures fresh(buffer)
    ensures buffer[..] == WavFile(duration, tone)
  {
    var numSamples := SampleRate * duration;
    var dataSize := numSamples * NumChannels * 2;
    buffer := new Byte[HeaderSize + dataSize](_ => 0);
    var view := buffer;
    WriteHeader(view, duration);
    WriteSamples(view, tone, numSamples);
  }
}
