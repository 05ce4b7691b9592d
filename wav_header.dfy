/**
 * `create_wav_header` of the voice agent: the 44-byte canonical PCM WAVE
 * header (a RIFF form holding a 'fmt ' chunk and the start of a 'data'
 * chunk), filled slice by slice into a zeroed 44-byte buffer.
 *
 * The code writes zero into both size fields (the RIFF size at offset 4 and
 * the data size at offset 40) whatever the parameters; the model does the same.
 */
module WavHeader {
  import opened Wrappers
  import opened PyText

  // ---------------------------------------------------------------------
  // Little-endian integers (`int.to_bytes(width, 'little')`)

  function Pow256(n: nat): (p: nat)
    ensures p >= 1
  {
    if n == 0 then 1 else 256 * Pow256(n - 1)
  }

  /** `to_bytes` succeeds exactly for non-negative values below 256^width;
      otherwise Python raises OverflowError. */
  predicate FitsUnsigned(v: int, width: nat) {
    0 <= v < Pow256(width)
  }

  /** `v.to_bytes(width, 'little')`: least significant byte first. */
  function ToBytesLE(v: nat, width: nat): (r: seq<byte>)
    requires v < Pow256(width)
    ensures |r| == width
  {
    if width == 0 then []
    else
      assert v / 256 < Pow256(width - 1);
      [(v % 256) as byte] + ToBytesLE(v / 256, width - 1)
  }

  /** Reads an unsigned little-endian integer back (`int.from_bytes(b, 'little')`). */
  function FromBytesLE(b: seq<byte>): nat {
    if b == [] then 0 else b[0] as int + 256 * FromBytesLE(b[1..])
  }

  /** Encoding then decoding a field gives the value back. */
  lemma {:induction false} LittleEndianRoundTrip(v: nat, width: nat)
    requires v < Pow256(width)
    ensures FromBytesLE(ToBytesLE(v, width)) == v
  {
    if width > 0 {
      assert v / 256 < Pow256(width - 1);
      LittleEndianRoundTrip(v / 256, width - 1);
      var r := ToBytesLE(v, width);
      assert r[1..] == ToBytesLE(v / 256, width - 1);
      assert r[0] as int == v % 256;
      assert v == v % 256 + 256 * (v / 256);
    }
  }

  // ---------------------------------------------------------------------
  // ASCII tags

  /** The bytes of an ASCII string literal such as `b'RIFF'`. */
  function Ascii(s: string): (r: seq<byte>)
    requires forall i :: 0 <= i < |s| ==> s[i] as int < 128
    ensures |r| == |s|
    ensures forall i :: 0 <= i < |s| ==> r[i] as int == s[i] as int
  {
    if s == [] then [] else [s[0] as int as byte] + Ascii(s[1..])
  }

  // ---------------------------------------------------------------------
  // Derived fields

  /** `sample_rate * channels * (bits_per_sample // 8)`. */
  function ByteRate(sampleRate: int, bitsPerSample: int, channels: int): int {
    sampleRate * channels * FloorDiv(bitsPerSample, 8)
  }

  /** `channels * (bits_per_sample // 8)`. */
  function BlockAlign(bitsPerSample: int, channels: int): int {
    channels * FloorDiv(bitsPerSample, 8)
  }

  /** The five `to_bytes` calls, in the order the code makes them. */
  datatype WavField = Channels | SampleRate | ByteRateField | BlockAlignField | BitsPerSample

  datatype WavError = OverflowError(field: WavField)

  /** The first field whose value does not fit its width, if any. */
  function FirstOverflow(sampleRate: int, bitsPerSample: int, channels: int): Option<WavField> {
    if !FitsUnsigned(channels, 2) then Some(Channels)
    else if !FitsUnsigned(sampleRate, 4) then Some(SampleRate)
    else if !FitsUnsigned(ByteRate(sampleRate, bitsPerSample, channels), 4) then Some(ByteRateField)
    else if !FitsUnsigned(BlockAlign(bitsPerSample, channels), 2) then Some(BlockAlignField)
    else if !FitsUnsigned(bitsPerSample, 2) then Some(BitsPerSample)
    else None
  }

  /** Every field fits: exactly the inputs for which the code returns a header. */
  predicate HeaderFits(sampleRate: int, bitsPerSample: int, channels: int) {
    FitsUnsigned(channels, 2) && FitsUnsigned(sampleRate, 4)
    && FitsUnsigned(ByteRate(sampleRate, bitsPerSample, channels), 4)
    && FitsUnsigned(BlockAlign(bitsPerSample, channels), 2)
    && FitsUnsigned(bitsPerSample, 2)
  }

  // ---------------------------------------------------------------------
  // The header, as a byte sequence and as the fields a reader decodes

  /** Bytes 0..11: the RIFF form header, its size field left at zero. */
  function RiffHeader(): (r: seq<byte>)
    ensures |r| == 12
  {
    Ascii("RIFF") + [0, 0, 0, 0] + Ascii("WAVE")
  }

  /** Bytes 12..35: the 'fmt ' chunk of a PCM stream. */
  function FmtChunk(channels: nat, sampleRate: nat, byteRate: nat, blockAlign: nat, bitsPerSample: nat): (r: seq<byte>)
    requires channels < Pow256(2) && sampleRate < Pow256(4) && byteRate < Pow256(4)
    requires blockAlign < Pow256(2) && bitsPerSample < Pow256(2)
    ensures |r| == 24
  {
    FmtPrefix() + ToBytesLE(channels, 2) + ToBytesLE(sampleRate, 4) + ToBytesLE(byteRate, 4)
    + ToBytesLE(blockAlign, 2) + ToBytesLE(bitsPerSample, 2)
  }

  /** The fixed first ten bytes of the 'fmt ' chunk: tag, chunk size 16, PCM format 1. */
  function FmtPrefix(): (r: seq<byte>)
    ensures |r| == 10
  {
    Ascii("fmt ") + [0x10, 0, 0, 0] + [0x01, 0]
  }

  /** Bytes 36..43: the 'data' chunk header, its size field left at zero. */
  function DataHeader(): (r: seq<byte>)
    ensures |r| == 8
  {
    Ascii("data") + [0, 0, 0, 0]
  }

  /** The 44 bytes the code writes. */
  function HeaderBytes(sampleRate: int, bitsPerSample: int, channels: int): (h: seq<byte>)
    requires HeaderFits(sampleRate, bitsPerSample, channels)
  {
    RiffHeader()
    + FmtChunk(channels, sampleRate, ByteRate(sampleRate, bitsPerSample, channels),
               BlockAlign(bitsPerSample, channels), bitsPerSample)
    + DataHeader()
  }

  /** What a WAVE reader finds in a 44-byte canonical header. */
  datatype WavInfo = WavInfo(
    riffSize: nat, fmtChunkSize: nat, audioFormat: nat, channels: nat,
    sampleRate: nat, byteRate: nat, blockAlign: nat, bitsPerSample: nat, dataSize: nat)

  /** Decodes the little-endian fields of a canonical header. */
  function ReadHeader(h: seq<byte>): WavInfo
    requires |h| == 44
  {
    WavInfo(FromBytesLE(h[4..8]), FromBytesLE(h[16..20]), FromBytesLE(h[20..22]),
            FromBytesLE(h[22..24]), FromBytesLE(h[24..28]), FromBytesLE(h[28..32]),
            FromBytesLE(h[32..34]), FromBytesLE(h[34..36]), FromBytesLE(h[40..44]))
  }

  /** The four ASCII tags a reader checks: 'RIFF', 'WAVE', 'fmt ' and 'data'. */
  predicate HasCanonicalTags(h: seq<byte>)
    requires |h| == 44
  {
    h[0..4] == Ascii("RIFF") && h[8..12] == Ascii("WAVE")
    && h[12..16] == Ascii("fmt ") && h[36..40] == Ascii("data")
  }

  /** A literal whose bytes after the first are zero decodes to its first byte. */
  lemma {:induction false} LowByteOnly(b: seq<byte>)
    requires |b| >= 1 && forall k :: 1 <= k < |b| ==> b[k] == 0
    ensures FromBytesLE(b) == b[0] as int
  {
    if |b| > 1 {
      LowByteOnly(b[1..]);
    } else {
      assert b[1..] == [];
    }
  }

  /** The fields of the 'fmt ' chunk decode to the values written into it. */
  lemma FmtChunkDecodes(channels: nat, sampleRate: nat, byteRate: nat, blockAlign: nat, bitsPerSample: nat)
    requires channels < Pow256(2) && sampleRate < Pow256(4) && byteRate < Pow256(4)
    requires blockAlign < Pow256(2) && bitsPerSample < Pow256(2)
    ensures var f := FmtChunk(channels, sampleRate, byteRate, blockAlign, bitsPerSample);
      f[0..4] == Ascii("fmt ") && FromBytesLE(f[4..8]) == 16 && FromBytesLE(f[8..10]) == 1
      && FromBytesLE(f[10..12]) == channels && FromBytesLE(f[12..16]) == sampleRate
      && FromBytesLE(f[16..20]) == byteRate && FromBytesLE(f[20..22]) == blockAlign
      && FromBytesLE(f[22..24]) == bitsPerSample
  {
    var c, s, b := ToBytesLE(channels, 2), ToBytesLE(sampleRate, 4), ToBytesLE(byteRate, 4);
    var a, w := ToBytesLE(blockAlign, 2), ToBytesLE(bitsPerSample, 2);
    FmtSlices(FmtPrefix(), c, s, b, a, w);
    FmtPrefixFields();
    LittleEndianRoundTrip(channels, 2);
    LittleEndianRoundTrip(sampleRate, 4);
    LittleEndianRoundTrip(byteRate, 4);
    LittleEndianRoundTrip(blockAlign, 2);
    LittleEndianRoundTrip(bitsPerSample, 2);
  }

  /** The pieces of the 'fmt ' chunk sit at their offsets. */
  lemma FmtSlices(p: seq<byte>, c: seq<byte>, s: seq<byte>, b: seq<byte>, a: seq<byte>, w: seq<byte>)
    requires |p| == 10 && |c| == 2 && |s| == 4 && |b| == 4 && |a| == 2 && |w| == 2
    ensures var f := p + c + s + b + a + w;
      f[0..4] == p[0..4] && f[4..8] == p[4..8] && f[8..10] == p[8..10]
      && f[10..12] == c && f[12..16] == s && f[16..20] == b && f[20..22] == a && f[22..24] == w
  {
  }

  /** The fixed prefix holds the tag, the chunk size 16 and the PCM format 1. */
  lemma FmtPrefixFields()
    ensures FmtPrefix()[0..4] == Ascii("fmt ")
    ensures FromBytesLE(FmtPrefix()[4..8]) == 16 && FromBytesLE(FmtPrefix()[8..10]) == 1
  {
    var p := FmtPrefix();
    assert p[0..4] == Ascii("fmt ");
    assert p[4..8] == [0x10, 0, 0, 0];
    LowByteOnly(p[4..8]);
    assert p[8..10] == [0x01, 0];
    LowByteOnly(p[8..10]);
  }

  /** Reading a header assembled from its three parts reads each part at its offset. */
  lemma AssembledHeader(r: seq<byte>, f: seq<byte>, d: seq<byte>)
    requires |r| == 12 && |f| == 24 && |d| == 8
    ensures |r + f + d| == 44
    ensures var h := r + f + d;
      h[0..4] == r[0..4] && h[8..12] == r[8..12] && h[12..16] == f[0..4] && h[36..40] == d[0..4]
      && ReadHeader(h) == WavInfo(FromBytesLE(r[4..8]), FromBytesLE(f[4..8]), FromBytesLE(f[8..10]),
                                  FromBytesLE(f[10..12]), FromBytesLE(f[12..16]), FromBytesLE(f[16..20]),
                                  FromBytesLE(f[20..22]), FromBytesLE(f[22..24]), FromBytesLE(d[4..8]))
  {
    var h := r + f + d;
    assert h[0..4] == r[0..4] && h[4..8] == r[4..8] && h[8..12] == r[8..12];
    assert h[12..16] == f[0..4] && h[16..20] == f[4..8] && h[20..22] == f[8..10];
    assert h[22..24] == f[10..12] && h[24..28] == f[12..16] && h[28..32] == f[16..20];
    assert h[32..34] == f[20..22] && h[34..36] == f[22..24];
    assert h[36..40] == d[0..4] && h[40..44] == d[4..8];
  }

  /** The three parts, for any field values that fit their widths, decode to
      a PCM header with those values and zero in both size fields. */
  lemma PartsDecode(channels: nat, sampleRate: nat, byteRate: nat, blockAlign: nat, bitsPerSample: nat)
    requires channels < Pow256(2) && sampleRate < Pow256(4) && byteRate < Pow256(4)
    requires blockAlign < Pow256(2) && bitsPerSample < Pow256(2)
    ensures var h := RiffHeader() + FmtChunk(channels, sampleRate, byteRate, blockAlign, bitsPerSample) + DataHeader();
      |h| == 44 && HasCanonicalTags(h)
      && ReadHeader(h) == WavInfo(0, 16, 1, channels, sampleRate, byteRate, blockAlign, bitsPerSample, 0)
  {
    var r, f, d := RiffHeader(), FmtChunk(channels, sampleRate, byteRate, blockAlign, bitsPerSample), DataHeader();
    FmtChunkDecodes(channels, sampleRate, byteRate, blockAlign, bitsPerSample);
    RiffAndDataFields();
    AssembledHeader(r, f, d);
  }

  /** The fixed parts carry their tags and zero size fields. */
  lemma RiffAndDataFields()
    ensures RiffHeader()[0..4] == Ascii("RIFF") && RiffHeader()[8..12] == Ascii("WAVE")
    ensures FromBytesLE(RiffHeader()[4..8]) == 0
    ensures DataHeader()[0..4] == Ascii("data") && FromBytesLE(DataHeader()[4..8]) == 0
  {
    var r, d := RiffHeader(), DataHeader();
    assert r[0..4] == Ascii("RIFF") && r[8..12] == Ascii("WAVE");
    assert r[4..8] == [0, 0, 0, 0];
    LowByteOnly(r[4..8]);
    assert d[0..4] == Ascii("data");
    assert d[4..8] == [0, 0, 0, 0];
    LowByteOnly(d[4..8]);
  }

  /** The header is 44 bytes long, carries the four tags at their offsets,
      and decodes to the requested format: PCM (format 1), a 16-byte 'fmt '
      chunk, the given channels, rate and bit depth, the derived byte rate and
      block alignment, and zero in both size fields whatever the parameters. */
  lemma HeaderDecodes(sampleRate: int, bitsPerSample: int, channels: int)
    requires HeaderFits(sampleRate, bitsPerSample, channels)
    ensures |HeaderBytes(sampleRate, bitsPerSample, channels)| == 44
    ensures HasCanonicalTags(HeaderBytes(sampleRate, bitsPerSample, channels))
    ensures ReadHeader(HeaderBytes(sampleRate, bitsPerSample, channels))
      == WavInfo(0, 16, 1, channels, sampleRate,
                 ByteRate(sampleRate, bitsPerSample, channels),
                 BlockAlign(bitsPerSample, channels), bitsPerSample, 0)
  {
    PartsDecode(channels, sampleRate, ByteRate(sampleRate, bitsPerSample, channels),
                BlockAlign(bitsPerSample, channels), bitsPerSample);
  }

  /** The default parameters (24000 Hz, 16 bit, mono) fit, and give a byte
      rate of 48000 and a block alignment of 2. */
  lemma DefaultHeader()
    ensures HeaderFits(24000, 16, 1)
    ensures ByteRate(24000, 16, 1) == 48000 && BlockAlign(16, 1) == 2
    ensures ReadHeader(HeaderBytes(24000, 16, 1)).byteRate == 48000
  {
    assert FloorDiv(16, 8) == 2;
    HeaderDecodes(24000, 16, 1);
  }

  // ---------------------------------------------------------------------
  // The code: a zeroed bytearray(44) filled slice by slice

  /** `buf[at:at + len(bytes)] = bytes` for a slice of the same length. */
  method WriteSlice(buf: array<byte>, at: nat, bytes: seq<byte>)
    requires at + |bytes| <= buf.Length
    modifies buf
    ensures buf[..at + |bytes|] == old(buf[..at]) + bytes
    ensures buf[at + |bytes|..] == old(buf[at + |bytes|..])
    ensures forall j :: at + |bytes| <= j < buf.Length ==> buf[j] == old(buf[j])
  {
    var k := 0;
    while k < |bytes|
      invariant 0 <= k <= |bytes|
      invariant buf[..at + k] == old(buf[..at]) + bytes[..k]
      invariant buf[at + k..] == old(buf[at + k..])
    {
      buf[at + k] := bytes[k];
      assert buf[..at + k + 1] == buf[..at + k] + [bytes[k]];
      assert bytes[..k + 1] == bytes[..k] + [bytes[k]];
      k := k + 1;
    }
    assert bytes[..k] == bytes;
    forall j | at + |bytes| <= j < buf.Length
      ensures buf[j] == old(buf[j])
    {
      assert buf[j] == buf[at + |bytes|..][j - at - |bytes|];
    }
  }

  /** `create_wav_header(sample_rate, bits_per_sample, channels)`: raises
      OverflowError (the first offending field, in the code's order) when a
      value does not fit its unsigned width, and otherwise returns a new
      44-byte buffer holding exactly the canonical header. */
  method CreateWavHeader(sampleRate: int, bitsPerSample: int, channels: int)
    returns (r: Result<array<byte>, WavError>)
    ensures r.Err? <==> !HeaderFits(sampleRate, bitsPerSample, channels)
    ensures r.Err? ==> FirstOverflow(sampleRate, bitsPerSample, channels) == Some(r.error.field)
    ensures r.Ok? ==> fresh(r.value) && r.value.Length == 44
    ensures r.Ok? ==> (HeaderFits(sampleRate, bitsPerSample, channels)
                       && r.value[..] == HeaderBytes(sampleRate, bitsPerSample, channels))
  {
    var byteRate := sampleRate * channels * FloorDiv(bitsPerSample, 8);
    var blockAlign := channels * FloorDiv(bitsPerSample, 8);
    var overflow := FirstOverflow(sampleRate, bitsPerSample, channels);
    if overflow.Some? {
      return Err(OverflowError(overflow.value));
    }
    var header := new byte[44](_ => 0);
    WriteRiffHeader(header);
    WriteFmtChunk(header, channels, sampleRate, byteRate, blockAlign, bitsPerSample);
    WriteDataHeader(header);
    assert header[..] == header[..44];
    return Ok(header);
  }

  /** Bytes 0..11 of `create_wav_header`. */
  method WriteRiffHeader(buf: array<byte>)
    requires buf.Length == 44
    modifies buf
    ensures buf[..12] == RiffHeader() && buf[12..] == old(buf[12..])
  {
    WriteSlice(buf, 0, Ascii("RIFF"));
    WriteSlice(buf, 4, [0, 0, 0, 0]);
    WriteSlice(buf, 8, Ascii("WAVE"));
  }

  /** Bytes 12..35 of `create_wav_header`. */
  method WriteFmtChunk(buf: array<byte>, channels: nat, sampleRate: nat, byteRate: nat, blockAlign: nat,
                       bitsPerSample: nat)
    requires buf.Length == 44
    requires channels < Pow256(2) && sampleRate < Pow256(4) && byteRate < Pow256(4)
    requires blockAlign < Pow256(2) && bitsPerSample < Pow256(2)
    modifies buf
    ensures buf[..36] == old(buf[..12]) + FmtChunk(channels, sampleRate, byteRate, blockAlign, bitsPerSample)
    ensures buf[36..] == old(buf[36..])
  {
    WriteSlice(buf, 12, Ascii("fmt "));
    WriteSlice(buf, 16, [0x10, 0, 0, 0]);
    WriteSlice(buf, 20, [0x01, 0]);
    assert buf[..22] == old(buf[..12]) + FmtPrefix();
    WriteSlice(buf, 22, ToBytesLE(channels, 2));
    WriteSlice(buf, 24, ToBytesLE(sampleRate, 4));
    WriteSlice(buf, 28, ToBytesLE(byteRate, 4));
    WriteSlice(buf, 32, ToBytesLE(blockAlign, 2));
    WriteSlice(buf, 34, ToBytesLE(bitsPerSample, 2));
  }

  /** Bytes 36..43 of `create_wav_header`. */
  method WriteDataHeader(buf: array<byte>)
    requires buf.Length == 44
    modifies buf
    ensures buf[..44] == old(buf[..36]) + DataHeader()
  {
    WriteSlice(buf, 36, Ascii("data"));
    WriteSlice(buf, 40, [0, 0, 0, 0]);
  }
}
