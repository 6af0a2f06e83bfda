/**
 * What a reader of the RIFF WAVE format finds in the file that the
 * placeholder encoder produces: a header parser and a sample reader that
 * follow the container layout, and the lemmas that the encoder's output
 * parses back to the intended header fields and to exactly the samples
 * written.
 */
module WavFormat {
  import opened Wrappers
  import opened ByteCodec
  import opened WavEncoder

  /** The fields of the 44-byte canonical header, as unsigned numbers. */
  datatype WavHeader = WavHeader(
    riffSize: int,       // offset 4: bytes that follow this field
    fmtSize: int,        // offset 16
    audioFormat: int,    // offset 20: 1 is PCM
    channels: int,       // offset 22
    sampleRate: int,     // offset 24
    byteRate: int,       // offset 28
    blockAlign: int,     // offset 32
    bitsPerSample: int,  // offset 34
    dataSize: int)       // offset 40: bytes of sample data

  datatype WavData = WavData(header: WavHeader, samples: seq<Int16>)

  /** Text as bytes, one byte per character. */
  function Ascii(s: string): (r: seq<Byte>)
    requires forall k :: 0 <= k < |s| ==> s[k] < 0x100 as char
    ensures |r| == |s| && forall k :: 0 <= k < |s| ==> r[k] == s[k] as int
  {
    seq(|s|, k requires 0 <= k < |s| => s[k] as int)
  }

  /** Reads the header: `None` unless the file is long enough and carries
      the `RIFF`, `WAVE`, `fmt ` and `data` tags at their places. */
  function ParseHeader(file: seq<Byte>): (r: Option<WavHeader>)
    ensures r.Some? ==> |file| >= HeaderSize && file[..4] == Ascii("RIFF")
                        && file[8..12] == Ascii("WAVE") && file[12..16] == Ascii("fmt ")
                        && file[36..40] == Ascii("data")
  {
    if |file| < HeaderSize
       || GetUint32BE(file, 0) != RiffTag || GetUint32BE(file, 8) != WaveTag
       || GetUint32BE(file, 12) != FmtTag || GetUint32BE(file, 36) != DataTag
    then None
    else
      TagBytes();
      BytesOfUint32BE(file, 0);
      BytesOfUint32BE(file, 8);
      BytesOfUint32BE(file, 12);
      BytesOfUint32BE(file, 36);
      Some(WavHeader(
        GetUint32(file, 4), GetUint32(file, 16), GetUint16(file, 20),
        GetUint16(file, 22), GetUint32(file, 24), GetUint32(file, 28),
        GetUint16(file, 32), GetUint16(file, 34), GetUint32(file, 40)))
  }

  /** The `n` 16-bit samples of the data region, sample `i` at `44 + 2*i`. */
  function ReadSamples(file: seq<Byte>, n: nat): (r: seq<Int16>)
    requires HeaderSize + 2 * n <= |file|
    ensures |r| == n
  {
    seq(n, i requires 0 <= i < n => GetInt16(file, HeaderSize + 2 * i))
  }

  /** Reads a whole file: the header, then as many samples as the declared
      data size holds, provided the file is that long. */
  function Decode(file: seq<Byte>): (r: Option<WavData>)
    ensures r.Some? ==> ParseHeader(file).Some? && r.value.header == ParseHeader(file).value
    ensures r.Some? ==> HeaderSize + 2 * |r.value.samples| <= |file|
  {
    match ParseHeader(file)
    case None => None
    case Some(h) =>
      if HeaderSize + h.dataSize <= |file|
      then Some(WavData(h, ReadSamples(file, h.dataSize / 2)))
      else None
  }

  // ---------------------------------------------------------------------
  // Properties of the encoder's output
  // ---------------------------------------------------------------------

  /** Durations for which every 32-bit size field holds its exact value. */
  const MaxExactDuration: nat := 48695

  /** The header the encoder intends for `duration`: the two size fields
      are what the 32-bit writes keep of `36 + dataSize` and `dataSize`. */
  function ExpectedHeader(duration: nat): WavHeader
  {
    WavHeader((36 + DataSize(duration)) % TwoTo32, 16, 1, 1, 44100, 88200, 2, 16,
              DataSize(duration) % TwoTo32)
  }

  /** The samples the encoder is given for `duration`. */
  function Tone(tone: nat -> Int16, n: nat): (r: seq<Int16>)
    ensures |r| == n
  {
    seq(n, i requires 0 <= i < n => tone(i))
  }

  /** The buffer is the 44-byte header followed by exactly two bytes per
      sample; for duration 0 it is the bare header. */
  lemma FileLength(duration: nat, tone: nat -> Int16)
    ensures |WavFile(duration, tone)| == HeaderSize + SampleRate * NumChannels * 2 * duration
    ensures |WavFile(duration, tone)| == HeaderSize + DataSize(duration)
    ensures duration == 0 ==> WavFile(duration, tone) == Header(0)
    ensures duration == 5 ==> |WavFile(duration, tone)| == 441044
  {
  }

  /** A slice inside the first part of a concatenation. */
  lemma SliceLeft(x: seq<Byte>, y: seq<Byte>, lo: nat, hi: nat)
    requires lo <= hi <= |x|
    ensures (x + y)[lo..hi] == x[lo..hi]
  {
  }

  /** A slice inside the second part of a concatenation. */
  lemma SliceRight(x: seq<Byte>, y: seq<Byte>, lo: nat, hi: nat)
    requires |x| <= lo <= hi <= |x| + |y|
    ensures (x + y)[lo..hi] == y[lo - |x|..hi - |x|]
  {
  }

  /** Where each field of the RIFF header lies. */
  lemma RiffHeaderFields(duration: nat)
    ensures RiffHeader(duration)[0..4] == Uint32BE(RiffTag)
    ensures RiffHeader(duration)[4..8] == Uint32LE(36 + DataSize(duration))
    ensures RiffHeader(duration)[8..12] == Uint32BE(WaveTag)
  {
    var a, b, c := Uint32BE(RiffTag), Uint32LE(36 + DataSize(duration)), Uint32BE(WaveTag);
    SliceLeft(a + b, c, 0, 4);
    SliceLeft(a + b, c, 4, 8);
    SliceRight(a + b, c, 8, 12);
  }

  /** Where each field of the `fmt ` chunk lies (offsets relative to the
      chunk, which starts at 12). */
  lemma FmtChunkFields()
    ensures FmtChunk()[0..4] == Uint32BE(FmtTag)
    ensures FmtChunk()[4..8] == Uint32LE(16)
    ensures FmtChunk()[8..10] == Uint16LE(1)
    ensures FmtChunk()[10..12] == Uint16LE(1)
    ensures FmtChunk()[12..16] == Uint32LE(44100)
    ensures FmtChunk()[16..20] == Uint32LE(88200)
    ensures FmtChunk()[20..22] == Uint16LE(2)
    ensures FmtChunk()[22..24] == Uint16LE(16)
  {
    var p1 := Uint32BE(FmtTag);
    var p2 := p1 + Uint32LE(16);
    var p3 := p2 + Uint16LE(1);
    var p4 := p3 + Uint16LE(1);
    var p5 := p4 + Uint32LE(44100);
    var p6 := p5 + Uint32LE(88200);
    var p7 := p6 + Uint16LE(2);
    assert FmtChunk() == p7 + Uint16LE(16);
    SliceRight(p7, Uint16LE(16), 22, 24);
    SliceLeft(p7, Uint16LE(16), 0, 22);
    SliceRight(p6, Uint16LE(2), 20, 22);
    SliceLeft(p6, Uint16LE(2), 0, 20);
    SliceRight(p5, Uint32LE(88200), 16, 20);
    SliceLeft(p5, Uint32LE(88200), 0, 16);
    SliceRight(p4, Uint32LE(44100), 12, 16);
    SliceLeft(p4, Uint32LE(44100), 0, 12);
    SliceRight(p3, Uint16LE(1), 10, 12);
    SliceLeft(p3, Uint16LE(1), 0, 10);
    SliceRight(p2, Uint16LE(1), 8, 10);
    SliceLeft(p2, Uint16LE(1), 0, 8);
    SliceRight(p1, Uint32LE(16), 4, 8);
    SliceLeft(p1, Uint32LE(16), 0, 4);
  }

  /** Where the two fields of the `data` chunk header lie. */
  lemma DataChunkHeaderFields(duration: nat)
    ensures DataChunkHeader(duration)[0..4] == Uint32BE(DataTag)
    ensures DataChunkHeader(duration)[4..8] == Uint32LE(DataSize(duration))
  {
    SliceLeft(Uint32BE(DataTag), Uint32LE(DataSize(duration)), 0, 4);
    SliceRight(Uint32BE(DataTag), Uint32LE(DataSize(duration)), 4, 8);
  }

  /** A header field of the file, located through the chunk it belongs to. */
  lemma FileSlices(duration: nat, tone: nat -> Int16)
    ensures var f := WavFile(duration, tone);
            |f| >= HeaderSize
            && f[0..12] == RiffHeader(duration) && f[12..36] == FmtChunk()
            && f[36..44] == DataChunkHeader(duration)
  {
    var r, m, d := RiffHeader(duration), FmtChunk(), DataChunkHeader(duration);
    var sb := SampleBytes(tone, NumSamples(duration));
    SliceLeft(r + m + d, sb, 0, 44);
    SliceLeft(r + m, d, 0, 36);
    SliceLeft(r + m + d, sb, 0, 12);
    SliceLeft(r + m, d, 0, 12);
    SliceLeft(r, m, 0, 12);
    SliceLeft(r + m + d, sb, 12, 36);
    SliceLeft(r + m, d, 12, 36);
    SliceRight(r, m, 12, 36);
    SliceLeft(r + m + d, sb, 36, 44);
    SliceRight(r + m, d, 36, 44);
  }

  /** A slice of a slice. */
  lemma SubSlice(f: seq<Byte>, base: nat, part: seq<Byte>, lo: nat, hi: nat)
    requires base + |part| <= |f| && f[base..base + |part|] == part && lo <= hi <= |part|
    ensures f[base + lo..base + hi] == part[lo..hi]
  {
    var g := f[base..base + |part|];
    forall k | 0 <= k < hi - lo ensures f[base + lo..base + hi][k] == g[lo..hi][k] {
      assert g[lo + k] == f[base + lo + k];
    }
    assert f[base + lo..base + hi] == g[lo..hi];
  }

  /** The four chunk tags sit big-endian at offsets 0, 8, 12 and 36. */
  lemma TagsAreAscii(duration: nat, tone: nat -> Int16)
    ensures WavFile(duration, tone)[0..4] == Ascii("RIFF")
    ensures WavFile(duration, tone)[8..12] == Ascii("WAVE")
    ensures WavFile(duration, tone)[12..16] == Ascii("fmt ")
    ensures WavFile(duration, tone)[36..40] == Ascii("data")
  {
    var f := WavFile(duration, tone);
    FileSlices(duration, tone);
    RiffHeaderFields(duration);
    FmtChunkFields();
    DataChunkHeaderFields(duration);
    SubSlice(f, 0, RiffHeader(duration), 0, 4);
    SubSlice(f, 0, RiffHeader(duration), 8, 12);
    SubSlice(f, 12, FmtChunk(), 0, 4);
    SubSlice(f, 36, DataChunkHeader(duration), 0, 4);
    TagBytes();
  }

  /** The four tag numbers are the ASCII codes of the tag names, high byte first. */
  lemma TagBytes()
    ensures Uint32BE(RiffTag) == Ascii("RIFF")
    ensures Uint32BE(WaveTag) == Ascii("WAVE")
    ensures Uint32BE(FmtTag) == Ascii("fmt ")
    ensures Uint32BE(DataTag) == Ascii("data")
  {
    assert Uint32BE(RiffTag) == [0x52, 0x49, 0x46, 0x46] == Ascii("RIFF");
    assert Uint32BE(WaveTag) == [0x57, 0x41, 0x56, 0x45] == Ascii("WAVE");
    assert Uint32BE(FmtTag) == [0x66, 0x6d, 0x74, 0x20] == Ascii("fmt ");
    assert Uint32BE(DataTag) == [0x64, 0x61, 0x74, 0x61] == Ascii("data");
  }

  /** Each header field reads back as the value the encoder meant. */
  lemma HeaderRoundTrip(duration: nat, tone: nat -> Int16)
    ensures ParseHeader(WavFile(duration, tone)) == Some(ExpectedHeader(duration))
  {
    var f := WavFile(duration, tone);
    var r, m, d := RiffHeader(duration), FmtChunk(), DataChunkHeader(duration);
    var ds := DataSize(duration);
    FileSlices(duration, tone);
    RiffHeaderFields(duration);
    FmtChunkFields();
    DataChunkHeaderFields(duration);
    SubSlice(f, 0, r, 0, 4);
    ReadUint32BEAt(f, 0, RiffTag);
    SubSlice(f, 0, r, 4, 8);
    ReadUint32At(f, 4, 36 + ds);
    SubSlice(f, 0, r, 8, 12);
    ReadUint32BEAt(f, 8, WaveTag);
    SubSlice(f, 12, m, 0, 4);
    ReadUint32BEAt(f, 12, FmtTag);
    SubSlice(f, 12, m, 4, 8);
    ReadUint32At(f, 16, 16);
    SubSlice(f, 12, m, 8, 10);
    ReadUint16At(f, 20, 1);
    SubSlice(f, 12, m, 10, 12);
    ReadUint16At(f, 22, 1);
    SubSlice(f, 12, m, 12, 16);
    ReadUint32At(f, 24, 44100);
    SubSlice(f, 12, m, 16, 20);
    ReadUint32At(f, 28, 88200);
    SubSlice(f, 12, m, 20, 22);
    ReadUint16At(f, 32, 2);
    SubSlice(f, 12, m, 22, 24);
    ReadUint16At(f, 34, 16);
    SubSlice(f, 36, d, 0, 4);
    ReadUint32BEAt(f, 36, DataTag);
    SubSlice(f, 36, d, 4, 8);
    ReadUint32At(f, 40, ds);
  }

  /** The size fields equal the file length minus 8 and minus 44 exactly
      when the duration is small enough for 32 bits; beyond that the
      32-bit writes wrap. */
  lemma SizeFieldsMatchLength(duration: nat, tone: nat -> Int16)
    ensures var h := ExpectedHeader(duration);
            var n := |WavFile(duration, tone)|;
            (h.riffSize == n - 8 <==> duration <= MaxExactDuration)
            && (h.dataSize == n - HeaderSize <==> duration <= MaxExactDuration)
  {
    var ds := DataSize(duration);
    if duration <= MaxExactDuration {
      assert ds <= 88200 * MaxExactDuration;
      DivModUnique(36 + ds, TwoTo32, 0, 36 + ds);
      DivModUnique(ds, TwoTo32, 0, ds);
    } else {
      assert ds >= 88200 * (MaxExactDuration + 1);
    }
  }

  /** Sample `i` reads back, little-endian two's complement at `44 + 2*i`,
      as the value written. */
  lemma {:induction false} SampleAt(duration: nat, tone: nat -> Int16, i: nat)
    requires i < NumSamples(duration)
    ensures HeaderSize + 2 * i + 2 <= |WavFile(duration, tone)|
    ensures GetInt16(WavFile(duration, tone), HeaderSize + 2 * i) == tone(i)
  {
    var f := WavFile(duration, tone);
    var sb := SampleBytes(tone, NumSamples(duration));
    assert f[HeaderSize + 2 * i..HeaderSize + 2 * i + 2] == sb[2 * i..2 * i + 2];
    assert sb[2 * i..2 * i + 2] == Int16LE(tone(i)) by {
      assert sb[2 * i] == Int16LE(tone(i))[0];
      assert sb[2 * i + 1] == Int16LE(tone(i))[1];
    }
    ReadInt16At(f, HeaderSize + 2 * i, tone(i));
  }

  /** Reading the encoder's output gives back its header and every sample,
      in order; the samples fill the data region with no gap and no
      overrun. */
  lemma {:induction false} DecodeRoundTrip(duration: nat, tone: nat -> Int16)
    requires duration <= MaxExactDuration
    ensures Decode(WavFile(duration, tone))
            == Some(WavData(ExpectedHeader(duration), Tone(tone, NumSamples(duration))))
    ensures HeaderSize + 2 * NumSamples(duration) == |WavFile(duration, tone)|
  {
    var f := WavFile(duration, tone);
    var n := NumSamples(duration);
    HeaderRoundTrip(duration, tone);
    SizeFieldsMatchLength(duration, tone);
    var h := ExpectedHeader(duration);
    assert h.dataSize == DataSize(duration) == |f| - HeaderSize;
    assert h.dataSize / 2 == n;
    forall i | 0 <= i < n
      ensures ReadSamples(f, n)[i] == Tone(tone, n)[i]
    {
      SampleAt(duration, tone, i);
    }
    assert ReadSamples(f, n) == Tone(tone, n);
    assert Decode(f) == Some(WavData(h, ReadSamples(f, n)));
  }
}
