/**
 * The WAV file `write_wav_file` produces (apps/mofa-tts/src/screen.rs):
 * the 44-byte Microsoft RIFF WAVE header of a mono 16-bit PCM stream,
 * followed by one little-endian 16-bit word per stored sample.
 *
 * The header's integers are `u32`/`u16` values computed with wrapping
 * arithmetic (a release build), written out explicitly as `% 2^32`.
 */
module TtsWav {
  import opened Wrappers

  newtype byte = x: int | 0 <= x < 256

  const U16Mod: int := 0x1_0000
  const U32Mod: int := 0x1_0000_0000
  const NumChannels: int := 1
  const BitsPerSample: int := 16
  const FmtChunkSize: int := 16
  const PcmFormat: int := 1
  const HeaderSize: nat := 44

  function Ascii4(s: string): seq<byte>
    requires |s| == 4 && forall i :: 0 <= i < 4 ==> s[i] as int < 256
  {
    [s[0] as int as byte, s[1] as int as byte, s[2] as int as byte, s[3] as int as byte]
  }

  /** `u16::to_le_bytes`. */
  function LE16(v: int): (b: seq<byte>)
    requires 0 <= v < U16Mod
    ensures |b| == 2
  {
    [(v % 256) as byte, (v / 256) as byte]
  }

  /** `u32::to_le_bytes`. */
  function LE32(v: int): (b: seq<byte>)
    requires 0 <= v < U32Mod
    ensures |b| == 4
  {
    LE16(v % U16Mod) + LE16(v / U16Mod)
  }

  function ReadLE16(b: seq<byte>): int
    requires |b| == 2
  {
    b[0] as int + 256 * b[1] as int
  }

  function ReadLE32(b: seq<byte>): int
    requires |b| == 4
  {
    ReadLE16(b[..2]) + U16Mod * ReadLE16(b[2..])
  }

  lemma LE16RoundTrip(v: int)
    requires 0 <= v < U16Mod
    ensures ReadLE16(LE16(v)) == v
  {
  }

  lemma LE32RoundTrip(v: int)
    requires 0 <= v < U32Mod
    ensures ReadLE32(LE32(v)) == v
  {
    assert LE32(v)[..2] == LE16(v % U16Mod);
    assert LE32(v)[2..] == LE16(v / U16Mod);
    LE16RoundTrip(v % U16Mod);
    LE16RoundTrip(v / U16Mod);
  }

  /** `(len * 2) as u32`: the data chunk's size field. */
  function DataSize(sampleCount: nat): int
  {
    (2 * sampleCount) % U32Mod
  }

  /** `36 + data_size` in `u32`. */
  function FileSize(sampleCount: nat): int
  {
    (36 + DataSize(sampleCount)) % U32Mod
  }

  /** `sample_rate * 1 * 16 / 8` in `u32`: the multiplication wraps before the division. */
  function ByteRate(sampleRate: int): int
    requires 0 <= sampleRate < U32Mod
  {
    (sampleRate * NumChannels * BitsPerSample) % U32Mod / 8
  }

  /** The RIFF chunk descriptor: "RIFF", the size of the rest of the file, "WAVE". */
  function RiffDescriptor(sampleCount: nat): (b: seq<byte>)
    ensures |b| == 12
  {
    Ascii4("RIFF") + LE32(FileSize(sampleCount)) + Ascii4("WAVE")
  }

  /** The `fmt ` chunk: PCM, mono, the rate, the byte rate, block align 2, 16 bits. */
  function FmtChunk(sampleRate: int): (b: seq<byte>)
    requires 0 <= sampleRate < U32Mod
    ensures |b| == 24
  {
    Ascii4("fmt ") + LE32(FmtChunkSize) + LE16(PcmFormat) + LE16(NumChannels)
    + LE32(sampleRate) + LE32(ByteRate(sampleRate))
    + LE16(NumChannels * BitsPerSample / 8) + LE16(BitsPerSample)
  }

  /** The `data` chunk's header: the tag and the data size. */
  function DataChunkHeader(sampleCount: nat): (b: seq<byte>)
    ensures |b| == 8
  {
    Ascii4("data") + LE32(DataSize(sampleCount))
  }

  /** The 44-byte header for `sampleCount` samples at `sampleRate`. */
  function WavHeader(sampleCount: nat, sampleRate: int): (h: seq<byte>)
    requires 0 <= sampleRate < U32Mod
    ensures |h| == HeaderSize as int
  {
    RiffDescriptor(sampleCount) + FmtChunk(sampleRate) + DataChunkHeader(sampleCount)
  }

  /** The fields a reader takes from a canonical PCM header. */
  datatype HeaderFields = HeaderFields(riffSize: int, fmtSize: int, format: int, channels: int,
                                       sampleRate: int, byteRate: int, blockAlign: int,
                                       bitsPerSample: int, dataSize: int)

  /** Reads a canonical 44-byte header: None unless the four chunk tags are in place. */
  function ParseWavHeader(h: seq<byte>): Option<HeaderFields>
  {
    if |h| < HeaderSize as int then None
    else if h[0..4] != Ascii4("RIFF") || h[8..12] != Ascii4("WAVE")
         || h[12..16] != Ascii4("fmt ") || h[36..40] != Ascii4("data") then None
    else Some(HeaderFields(ReadLE32(h[4..8]), ReadLE32(h[16..20]), ReadLE16(h[20..22]),
                           ReadLE16(h[22..24]), ReadLE32(h[24..28]), ReadLE32(h[28..32]),
                           ReadLE16(h[32..34]), ReadLE16(h[34..36]), ReadLE32(h[40..44])))
  }

  lemma RiffDescriptorFields(sampleCount: nat)
    ensures var r := RiffDescriptor(sampleCount);
      r[0..4] == Ascii4("RIFF") && r[4..8] == LE32(FileSize(sampleCount)) && r[8..12] == Ascii4("WAVE")
  {
  }

  lemma FmtChunkFields(sampleRate: int)
    requires 0 <= sampleRate < U32Mod
    ensures var f := FmtChunk(sampleRate);
      && f[0..4] == Ascii4("fmt ") && f[4..8] == LE32(FmtChunkSize) && f[8..10] == LE16(PcmFormat)
      && f[10..12] == LE16(NumChannels) && f[12..16] == LE32(sampleRate)
      && f[16..20] == LE32(ByteRate(sampleRate)) && f[20..22] == LE16(NumChannels * BitsPerSample / 8)
      && f[22..24] == LE16(BitsPerSample)
  {
  }

  /** Where each field sits in the header. */
  lemma WavHeaderFields(sampleCount: nat, sampleRate: int)
    requires 0 <= sampleRate < U32Mod
    ensures var h := WavHeader(sampleCount, sampleRate);
      && h[0..4] == Ascii4("RIFF") && h[4..8] == LE32(FileSize(sampleCount)) && h[8..12] == Ascii4("WAVE")
      && h[12..16] == Ascii4("fmt ") && h[16..20] == LE32(FmtChunkSize) && h[20..22] == LE16(PcmFormat)
      && h[22..24] == LE16(NumChannels) && h[24..28] == LE32(sampleRate)
      && h[28..32] == LE32(ByteRate(sampleRate)) && h[32..34] == LE16(NumChannels * BitsPerSample / 8)
      && h[34..36] == LE16(BitsPerSample)
      && h[36..40] == Ascii4("data") && h[40..44] == LE32(DataSize(sampleCount))
  {
    var h := WavHeader(sampleCount, sampleRate);
    var r, f, d := RiffDescriptor(sampleCount), FmtChunk(sampleRate), DataChunkHeader(sampleCount);
    RiffDescriptorFields(sampleCount);
    FmtChunkFields(sampleRate);
    assert forall i, j :: 0 <= i <= j <= 12 ==> h[i..j] == r[i..j];
    assert forall i, j :: 12 <= i <= j <= 36 ==> h[i..j] == f[i - 12..j - 12];
    assert forall i, j :: 36 <= i <= j <= 44 ==> h[i..j] == d[i - 36..j - 36];
  }

  /**
   * Without wrap-around the size fields are the documented ones: byte rate
   * 2r, data size 2n and RIFF size 36 + 2n.
   */
  lemma WavSizesExact(sampleCount: nat, sampleRate: int)
    requires 0 <= sampleRate < U32Mod
    ensures 16 * sampleRate < U32Mod ==> ByteRate(sampleRate) == 2 * sampleRate
    ensures 36 + 2 * sampleCount < U32Mod ==>
              DataSize(sampleCount) == 2 * sampleCount && FileSize(sampleCount) == 36 + 2 * sampleCount
  {
  }

  /**
   * Reading the header back gives the RIFF size, a mono 16-bit PCM `fmt `
   * chunk of size 16 at the given rate with block align 2, and the data
   * size.
   */
  lemma WavHeaderRoundTrip(sampleCount: nat, sampleRate: int)
    requires 0 <= sampleRate < U32Mod
    ensures var f := ParseWavHeader(WavHeader(sampleCount, sampleRate));
      && f.Some?
      && f.value == HeaderFields(FileSize(sampleCount), 16, 1, 1, sampleRate, ByteRate(sampleRate),
                                 2, 16, DataSize(sampleCount))
  {
    var h := WavHeader(sampleCount, sampleRate);
    WavHeaderFields(sampleCount, sampleRate);
    var fs, br, ds := FileSize(sampleCount), ByteRate(sampleRate), DataSize(sampleCount);
    LE32RoundTrip(fs);
    LE32RoundTrip(FmtChunkSize);
    LE16RoundTrip(PcmFormat);
    LE16RoundTrip(NumChannels);
    LE32RoundTrip(sampleRate);
    LE32RoundTrip(br);
    LE16RoundTrip(NumChannels * BitsPerSample / 8);
    LE16RoundTrip(BitsPerSample);
    LE32RoundTrip(ds);
  }

  /**
   * The f32 to i16 conversion: clamp to [-1, 1], scale by 32767 and
   * truncate toward zero (computed on reals).
   */
  function ToPcm16(sample: real): (v: int)
    ensures -32767 <= v <= 32767
    ensures 0.0 <= sample ==> 0 <= v
    ensures sample <= 0.0 ==> v <= 0
  {
    var clamped := if sample < -1.0 then -1.0 else if sample > 1.0 then 1.0 else sample;
    var scaled := clamped * 32767.0;
    if scaled >= 0.0 then scaled.Floor else -((-scaled).Floor)
  }

  /** `i16::to_le_bytes`: two's complement in two bytes. */
  function PcmBytes(v: int): (b: seq<byte>)
    requires -32768 <= v < 32768
    ensures |b| == 2
  {
    LE16(if v < 0 then v + U16Mod else v)
  }

  /** The data chunk's bytes: two per sample, in sample order. */
  function DataBytes(samples: seq<real>): (b: seq<byte>)
    ensures |b| == 2 * |samples|
  {
    if samples == [] then []
    else DataBytes(samples[..|samples| - 1]) + PcmBytes(ToPcm16(samples[|samples| - 1]))
  }

  /** Sample `i` is encoded at bytes 2i and 2i+1 of the data chunk. */
  lemma {:induction false} DataBytesAt(samples: seq<real>, i: nat)
    requires i < |samples|
    ensures DataBytes(samples)[2 * i..2 * i + 2] == PcmBytes(ToPcm16(samples[i]))
    decreases |samples|
  {
    var n := |samples| - 1;
    if i < n {
      DataBytesAt(samples[..n], i);
      assert DataBytes(samples)[2 * i..2 * i + 2] == DataBytes(samples[..n])[2 * i..2 * i + 2];
    }
  }

  /** Decoding each two-byte word gives back the 16-bit sample. */
  lemma PcmRoundTrip(v: int)
    requires -32768 <= v < 32768
    ensures var u := ReadLE16(PcmBytes(v)); (if u >= 32768 then u - U16Mod else u) == v
  {
    LE16RoundTrip(if v < 0 then v + U16Mod else v);
  }

  /**
   * `write_wav_file`: the bytes written, in order: the header, then each
   * sample as a 16-bit word.
   */
  method WriteWavFile(samples: seq<real>, sampleRate: int) returns (written: seq<byte>)
    requires 0 <= sampleRate < U32Mod
    ensures written == WavHeader(|samples|, sampleRate) + DataBytes(samples)
    ensures |written| == HeaderSize as int + 2 * |samples|
  {
    written := WavHeader(|samples|, sampleRate);
    var i := 0;
    while i < |samples|
      invariant 0 <= i <= |samples|
      invariant written == WavHeader(|samples|, sampleRate) + DataBytes(samples[..i])
    {
      assert samples[..i + 1][..i] == samples[..i];
      written := written + PcmBytes(ToPcm16(samples[i]));
      i := i + 1;
    }
    assert samples[..i] == samples;
  }
}
