/** The WAV finaliser of frontend/js/recording.js: the RIFF WAVE PCM layout
    of the Microsoft/IBM Multimedia Programming Interface and Data
    Specifications 1.0 (a "fmt " chunk for WAVE_FORMAT_PCM followed by a
    "data" chunk), written into a zero-filled buffer through the DataView
    setters, and the frame-major interleaving of decoded channels.

    Samples are reals: a Float32 sample times 32767 is exact in a double
    (24 + 15 significant bits), so truncating the real product is what
    DataView.setInt16 does to the double. */
module Wav {
  import opened Js
  import opened Browser

  const HeaderSize: nat := 44
  /** The factor createWAVFromFloat32Array scales a clamped sample by. */
  const Scale: int := 32767

  // ---------------------------------------------------------------------
  // Byte-level specification

  /** ToUint16 on an integer. */
  function U16(v: int): (r: nat)
    ensures r < 0x1_0000 && (0 <= v < 0x1_0000 ==> r == v)
  {
    v % 0x1_0000
  }

  /** ToUint32 on an integer. */
  function U32(v: int): (r: nat)
    ensures r < 0x1_0000_0000 && (0 <= v < 0x1_0000_0000 ==> r == v)
  {
    v % 0x1_0000_0000
  }

  /** The bytes DataView.setUint16/setInt16(offset, v, true) store for an
      integer v: v modulo 2^16, low byte first. */
  function LE16(v: int): (r: seq<Byte>)
    ensures |r| == 2
  {
    var u := U16(v);
    [u % 0x100, u / 0x100]
  }

  /** The bytes DataView.setUint32(offset, v, true) stores. */
  function LE32(v: int): (r: seq<Byte>)
    ensures |r| == 4
  {
    var u := U32(v);
    LE16(u % 0x1_0000) + LE16(u / 0x1_0000)
  }

  /** One byte per character: setUint8 of charCodeAt, i.e. the code modulo 256. */
  function Ascii(s: string): (r: seq<Byte>)
    ensures |r| == |s|
  {
    seq(|s|, i requires 0 <= i < |s| => (s[i] as int) % 0x100)
  }

  function ReadLE16(b: seq<Byte>, at: nat): nat
    requires at + 2 <= |b|
  {
    b[at] as int + 0x100 * (b[at + 1] as int)
  }

  function ReadLE32(b: seq<Byte>, at: nat): nat
    requires at + 4 <= |b|
  {
    ReadLE16(b, at) + 0x1_0000 * ReadLE16(b, at + 2)
  }

  /** A little-endian two's-complement 16-bit integer. */
  function ReadInt16(b: seq<Byte>, at: nat): int
    requires at + 2 <= |b|
  {
    var u := ReadLE16(b, at);
    if u < 0x8000 then u else u - 0x1_0000
  }

  lemma LE16RoundTrip(v: int)
    ensures ReadLE16(LE16(v), 0) == U16(v)
  {
  }

  lemma LE32RoundTrip(v: int)
    ensures ReadLE32(LE32(v), 0) == U32(v)
  {
    var u := U32(v);
    var lo, hi := LE16(u % 0x1_0000), LE16(u / 0x1_0000);
    LE16RoundTrip(u % 0x1_0000);
    LE16RoundTrip(u / 0x1_0000);
    assert LE32(v)[0] == lo[0] && LE32(v)[1] == lo[1] && LE32(v)[2] == hi[0] && LE32(v)[3] == hi[1];
  }

  /** Math.max(-1, Math.min(1, s)). */
  function Clamp(s: real): real {
    if s > 1.0 then 1.0 else if s < -1.0 then -1.0 else s
  }

  /** The int16 value a sample becomes. */
  function Quantize(s: real): int {
    Trunc(Clamp(s) * Scale as real)
  }

  /** The two bytes a sample becomes. */
  function SampleBytes(s: real): seq<Byte> {
    LE16(Quantize(s))
  }

  /** The 44-byte canonical header, field by field as the finaliser writes it. */
  function Header(sampleRate: nat, numChannels: nat, dataSize: nat): (r: seq<Byte>)
    ensures |r| == HeaderSize
  {
    RiffDescriptor(dataSize) + FormatChunk(sampleRate, numChannels) + DataChunkHeader(dataSize)
  }

  /** Bytes 0 to 11: "RIFF", the chunk size 36 + dataSize, "WAVE". */
  function RiffDescriptor(dataSize: nat): (r: seq<Byte>)
    ensures |r| == 12
  {
    Ascii("RIFF") + LE32(36 + dataSize) + Ascii("WAVE")
  }

  /** Bytes 12 to 35: "fmt ", size 16, format 1 (PCM), the channel count,
      the sample rate, the byte rate, the block align and 16 bits per sample. */
  function FormatChunk(sampleRate: nat, numChannels: nat): (r: seq<Byte>)
    ensures |r| == 24
  {
    Ascii("fmt ") + LE32(16) + LE16(1) + LE16(numChannels) +
    LE32(sampleRate) + LE32(sampleRate * numChannels * 2) +
    LE16(numChannels * 2) + LE16(16)
  }

  /** Bytes 36 to 43: "data" and the payload size. */
  function DataChunkHeader(dataSize: nat): (r: seq<Byte>)
    ensures |r| == 8
  {
    Ascii("data") + LE32(dataSize)
  }

  /** The payload: the samples' bytes one after the other. */
  function PcmBytes(samples: seq<real>): (r: seq<Byte>)
    ensures |r| == 2 * |samples|
  {
    if samples == [] then [] else PcmBytes(samples[..|samples| - 1]) + SampleBytes(samples[|samples| - 1])
  }

  /** The whole file createWAVFromFloat32Array produces. */
  function WavFile(samples: seq<real>, sampleRate: nat, numChannels: nat): (r: seq<Byte>)
    ensures |r| == HeaderSize + 2 * |samples|
  {
    Header(sampleRate, numChannels, 2 * |samples|) + PcmBytes(samples)
  }

  // ---------------------------------------------------------------------
  // Properties of the layout

  /** Sizes: 44 + dataSize bytes, with dataSize = 2 per sample. */
  lemma WavFileSize(samples: seq<real>, sampleRate: nat, numChannels: nat)
    ensures |WavFile(samples, sampleRate, numChannels)| == HeaderSize + 2 * |samples|
    ensures WavFile(samples, sampleRate, numChannels)[..HeaderSize] == Header(sampleRate, numChannels, 2 * |samples|)
  {
  }

  /** Two bytes read back as the 16-bit value they were written from. */
  lemma ReadLE16At(h: seq<Byte>, at: nat, v: int)
    requires at + 2 <= |h| && h[at..at + 2] == LE16(v)
    ensures ReadLE16(h, at) == U16(v)
  {
    assert h[at] == LE16(v)[0] && h[at + 1] == LE16(v)[1];
    LE16RoundTrip(v);
  }

  /** Four bytes read back as the 32-bit value they were written from. */
  lemma ReadLE32At(h: seq<Byte>, at: nat, v: int)
    requires at + 4 <= |h| && h[at..at + 4] == LE32(v)
    ensures ReadLE32(h, at) == U32(v)
  {
    var b := LE32(v);
    assert h[at] == b[0] && h[at + 1] == b[1] && h[at + 2] == b[2] && h[at + 3] == b[3];
    LE32RoundTrip(v);
  }

  /** Every header field sits at its offset, little-endian. */
  lemma HeaderLayout(sampleRate: nat, numChannels: nat, dataSize: nat)
    ensures var h := Header(sampleRate, numChannels, dataSize);
      h[0..4] == Ascii("RIFF") && ReadLE32(h, 4) == U32(36 + dataSize) && h[8..12] == Ascii("WAVE")
    ensures var h := Header(sampleRate, numChannels, dataSize);
      h[12..16] == Ascii("fmt ") && ReadLE32(h, 16) == 16 && ReadLE16(h, 20) == 1 &&
      ReadLE16(h, 22) == U16(numChannels) && ReadLE32(h, 24) == U32(sampleRate) &&
      ReadLE32(h, 28) == U32(sampleRate * numChannels * 2) &&
      ReadLE16(h, 32) == U16(numChannels * 2) && ReadLE16(h, 34) == 16
    ensures var h := Header(sampleRate, numChannels, dataSize);
      h[36..40] == Ascii("data") && ReadLE32(h, 40) == U32(dataSize)
  {
    var h := Header(sampleRate, numChannels, dataSize);
    var riff, fmt, data := RiffDescriptor(dataSize), FormatChunk(sampleRate, numChannels), DataChunkHeader(dataSize);
    assert h[0..12] == riff && h[12..36] == fmt && h[36..44] == data;
    assert h[0..4] == riff[0..4] == Ascii("RIFF");
    assert h[4..8] == riff[4..8] == LE32(36 + dataSize);
    assert h[8..12] == riff[8..12] == Ascii("WAVE");
    assert h[12..16] == fmt[0..4] == Ascii("fmt ");
    assert h[16..20] == fmt[4..8] == LE32(16);
    assert h[20..22] == fmt[8..10] == LE16(1);
    assert h[22..24] == fmt[10..12] == LE16(numChannels);
    assert h[24..28] == fmt[12..16] == LE32(sampleRate);
    assert h[28..32] == fmt[16..20] == LE32(sampleRate * numChannels * 2);
    assert h[32..34] == fmt[20..22] == LE16(numChannels * 2);
    assert h[34..36] == fmt[22..24] == LE16(16);
    assert h[36..40] == data[0..4] == Ascii("data");
    assert h[40..44] == data[4..8] == LE32(dataSize);
    ReadLE32At(h, 4, 36 + dataSize);
    ReadLE32At(h, 16, 16);
    ReadLE16At(h, 20, 1);
    ReadLE16At(h, 22, numChannels);
    ReadLE32At(h, 24, sampleRate);
    ReadLE32At(h, 28, sampleRate * numChannels * 2);
    ReadLE16At(h, 32, numChannels * 2);
    ReadLE16At(h, 34, 16);
    ReadLE32At(h, 40, dataSize);
  }

  /** A quantised sample never wraps: clamping keeps it within
      [-32767, 32767], 1.0 gives 32767 and -1.0 gives -32767 (truncation,
      never -32768), and the sign is kept. */
  lemma QuantizeRange(s: real)
    ensures -Scale <= Quantize(s) <= Scale
    ensures s >= 1.0 ==> Quantize(s) == Scale
    ensures s <= -1.0 ==> Quantize(s) == -Scale
    ensures 0.0 <= s ==> 0 <= Quantize(s)
    ensures s <= 0.0 ==> Quantize(s) <= 0
  {
  }

  /** The two bytes of a sample read back, as a signed 16-bit integer, as
      its quantised value. */
  lemma SampleBytesRoundTrip(s: real)
    ensures ReadInt16(SampleBytes(s), 0) == Quantize(s)
  {
    QuantizeRange(s);
    LE16RoundTrip(Quantize(s));
  }

  /** Sample k's bytes are bytes 2k and 2k+1 of the payload. */
  lemma {:induction false} PcmBytesAt(samples: seq<real>, k: nat)
    requires k < |samples|
    ensures PcmBytes(samples)[2 * k..2 * k + 2] == SampleBytes(samples[k])
  {
    var n := |samples| - 1;
    if k < n {
      PcmBytesAt(samples[..n], k);
      assert samples[..n][k] == samples[k];
    }
  }

  /** Sample k is stored at bytes 44+2k and 45+2k as the little-endian
      int16 of its quantised value. */
  lemma SampleAt(samples: seq<real>, sampleRate: nat, numChannels: nat, k: nat)
    requires k < |samples|
    ensures var f := WavFile(samples, sampleRate, numChannels);
      HeaderSize + 2 * k + 2 <= |f| && ReadInt16(f, HeaderSize + 2 * k) == Quantize(samples[k])
  {
    var f := WavFile(samples, sampleRate, numChannels);
    PcmBytesAt(samples, k);
    SampleBytesRoundTrip(samples[k]);
    assert f[HeaderSize + 2 * k..HeaderSize + 2 * k + 2] == SampleBytes(samples[k]);
  }

  /** The fields of a canonical header. */
  datatype WavHeader = WavHeader(sampleRate: nat, numChannels: nat, dataSize: nat)

  /** A reader of the 44-byte header, independent of the writer: it checks
      the four tags, every constant field and the derived rates. */
  function ParseHeader(h: seq<Byte>): Option<WavHeader>
    requires |h| == HeaderSize
  {
    var dataSize, numChannels, sampleRate := ReadLE32(h, 40), ReadLE16(h, 22), ReadLE32(h, 24);
    if h[0..4] != Ascii("RIFF") || h[8..12] != Ascii("WAVE") || h[12..16] != Ascii("fmt ") ||
       h[36..40] != Ascii("data") || ReadLE32(h, 4) != 36 + dataSize || ReadLE32(h, 16) != 16 ||
       ReadLE16(h, 20) != 1 || ReadLE16(h, 34) != 16 || ReadLE16(h, 32) != numChannels * 2 ||
       ReadLE32(h, 28) != sampleRate * numChannels * 2
    then None
    else Some(WavHeader(sampleRate, numChannels, dataSize))
  }

  /** Little-endian int16 values, two bytes each. */
  function DecodeSamples(p: seq<Byte>): (r: seq<int>)
    requires |p| % 2 == 0
    ensures |r| == |p| / 2
  {
    seq(|p| / 2, k requires 0 <= k < |p| / 2 => ReadInt16(p, 2 * k))
  }

  /** What a WAV reader recovers from a file. */
  datatype WavData = WavData(sampleRate: nat, numChannels: nat, samples: seq<int>)

  /** A reader of canonical PCM WAV files: the header, then exactly
      dataSize bytes of samples. */
  function ParseWav(b: seq<Byte>): Option<WavData> {
    if |b| < HeaderSize then None
    else match ParseHeader(b[..HeaderSize])
      case None => None
      case Some(h) =>
        if h.dataSize != |b| - HeaderSize || h.dataSize % 2 != 0 then None
        else Some(WavData(h.sampleRate, h.numChannels, DecodeSamples(b[HeaderSize..])))
  }

  /** The file fits the 32-bit size and rate fields and the 16-bit
      channel fields without wrapping. */
  predicate FitsFields(sampleCount: nat, sampleRate: nat, numChannels: nat) {
    36 + 2 * sampleCount < 0x1_0000_0000 && sampleRate < 0x1_0000_0000 &&
    sampleRate * numChannels * 2 < 0x1_0000_0000 && numChannels * 2 < 0x1_0000
  }

  /** A header whose fields hold these values parses to them. */
  lemma ParseHeaderFields(h: seq<Byte>, sampleRate: nat, numChannels: nat, dataSize: nat)
    requires |h| == HeaderSize
    requires h[0..4] == Ascii("RIFF") && ReadLE32(h, 4) == 36 + dataSize && h[8..12] == Ascii("WAVE")
    requires h[12..16] == Ascii("fmt ") && ReadLE32(h, 16) == 16 && ReadLE16(h, 20) == 1
    requires ReadLE16(h, 22) == numChannels && ReadLE32(h, 24) == sampleRate
    requires ReadLE32(h, 28) == sampleRate * numChannels * 2 && ReadLE16(h, 32) == numChannels * 2
    requires ReadLE16(h, 34) == 16 && h[36..40] == Ascii("data") && ReadLE32(h, 40) == dataSize
    ensures ParseHeader(h) == Some(WavHeader(sampleRate, numChannels, dataSize))
  {
  }

  /** With no field wrapping, each field holds exactly its value. */
  lemma HeaderFieldsExact(sampleRate: nat, numChannels: nat, dataSize: nat)
    requires 36 + dataSize < 0x1_0000_0000 && sampleRate < 0x1_0000_0000
    requires sampleRate * numChannels * 2 < 0x1_0000_0000 && numChannels * 2 < 0x1_0000
    ensures var h := Header(sampleRate, numChannels, dataSize);
      ReadLE32(h, 4) == 36 + dataSize && ReadLE16(h, 22) == numChannels && ReadLE32(h, 24) == sampleRate &&
      ReadLE32(h, 28) == sampleRate * numChannels * 2 && ReadLE16(h, 32) == numChannels * 2 &&
      ReadLE32(h, 40) == dataSize
  {
    HeaderLayout(sampleRate, numChannels, dataSize);
    var product := sampleRate * numChannels;
    NonNegativeProduct(sampleRate, numChannels);
    ExactWhenInRange(product * 2, numChannels * 2);
  }

  lemma NonNegativeProduct(a: nat, b: nat)
    ensures a * b >= 0
  {
  }

  lemma ExactWhenInRange(v32: int, v16: int)
    requires 0 <= v32 < 0x1_0000_0000 && 0 <= v16 < 0x1_0000
    ensures U32(v32) == v32 && U16(v16) == v16
  {
  }

  /** The header reads back as written when no field wraps. */
  lemma ParseHeaderRoundTrip(sampleRate: nat, numChannels: nat, dataSize: nat)
    requires 36 + dataSize < 0x1_0000_0000 && sampleRate < 0x1_0000_0000
    requires sampleRate * numChannels * 2 < 0x1_0000_0000 && numChannels * 2 < 0x1_0000
    ensures ParseHeader(Header(sampleRate, numChannels, dataSize)) == Some(WavHeader(sampleRate, numChannels, dataSize))
  {
    HeaderLayout(sampleRate, numChannels, dataSize);
    HeaderFieldsExact(sampleRate, numChannels, dataSize);
    ParseHeaderFields(Header(sampleRate, numChannels, dataSize), sampleRate, numChannels, dataSize);
  }


  /** The quantised value of every sample, in order. */
  function QuantizeAll(samples: seq<real>): (r: seq<int>)
    ensures |r| == |samples|
  {
    seq(|samples|, k requires 0 <= k < |samples| => Quantize(samples[k]))
  }

  /** Decoding a payload gives the quantised samples, in order. */
  lemma DecodePcmBytes(samples: seq<real>)
    ensures DecodeSamples(PcmBytes(samples)) == QuantizeAll(samples)
  {
    var p := PcmBytes(samples);
    forall k | 0 <= k < |samples|
      ensures DecodeSamples(p)[k] == Quantize(samples[k])
    {
      PcmBytesAt(samples, k);
      SampleBytesRoundTrip(samples[k]);
      var b := p[2 * k..2 * k + 2];
      assert b == SampleBytes(samples[k]);
      assert p[2 * k] == b[0] && p[2 * k + 1] == b[1];
    }
  }

  /** Reading back a written file gives its rate, its channel count and the
      quantised samples, in order. */
  lemma ParseWavFile(samples: seq<real>, sampleRate: nat, numChannels: nat)
    requires FitsFields(|samples|, sampleRate, numChannels)
    ensures ParseWav(WavFile(samples, sampleRate, numChannels)) ==
            Some(WavData(sampleRate, numChannels, QuantizeAll(samples)))
  {
    var f := WavFile(samples, sampleRate, numChannels);
    ParseHeaderRoundTrip(sampleRate, numChannels, 2 * |samples|);
    assert f[..HeaderSize] == Header(sampleRate, numChannels, 2 * |samples|);
    assert f[HeaderSize..] == PcmBytes(samples);
    DecodePcmBytes(samples);
  }


  /** The real a decoded int16 sample stands for. */
  function Dequantize(q: int): real {
    q as real / Scale as real
  }

  /** Quantising a dequantised in-range value gives it back. */
  lemma QuantizeDequantize(q: int)
    requires -Scale <= q <= Scale
    ensures Quantize(Dequantize(q)) == q
  {
    var x := Dequantize(q);
    assert -1.0 <= x <= 1.0;
    assert Clamp(x) * Scale as real == q as real;
  }

  function DequantizeAll(qs: seq<int>): (r: seq<real>)
    ensures |r| == |qs|
  {
    seq(|qs|, k requires 0 <= k < |qs| => Dequantize(qs[k]))
  }

  /** Payloads of samples with equal quantised values are equal. */
  lemma {:induction false} PcmBytesQuantized(a: seq<real>, b: seq<real>)
    requires |a| == |b|
    requires forall k :: 0 <= k < |a| ==> Quantize(a[k]) == Quantize(b[k])
    ensures PcmBytes(a) == PcmBytes(b)
  {
    if a != [] {
      PcmBytesQuantized(a[..|a| - 1], b[..|b| - 1]);
    }
  }

  /** Encoding is idempotent on its own output: decoding a produced file and
      encoding the decoded samples again yields the same bytes. */
  lemma ReencodeIdentical(samples: seq<real>, sampleRate: nat, numChannels: nat)
    requires FitsFields(|samples|, sampleRate, numChannels)
    ensures var d := ParseWav(WavFile(samples, sampleRate, numChannels));
      d.Some? && WavFile(DequantizeAll(d.value.samples), sampleRate, numChannels) == WavFile(samples, sampleRate, numChannels)
  {
    ParseWavFile(samples, sampleRate, numChannels);
    var again := DequantizeAll(QuantizeAll(samples));
    forall k | 0 <= k < |samples|
      ensures Quantize(again[k]) == Quantize(samples[k])
    {
      QuantizeRange(samples[k]);
      QuantizeDequantize(Quantize(samples[k]));
    }
    PcmBytesQuantized(again, samples);
  }

  // ---------------------------------------------------------------------
  // Interleaving

  /** Frame i: sample i of every channel, channel by channel. */
  function Frame(channels: seq<seq<real>>, i: nat): (r: seq<real>)
    requires forall c :: 0 <= c < |channels| ==> i < |channels[c]|
    ensures |r| == |channels|
  {
    seq(|channels|, c requires 0 <= c < |channels| => channels[c][i])
  }

  /** The first n frames, frame after frame. */
  function Interleave(channels: seq<seq<real>>, n: nat): seq<real>
    requires forall c :: 0 <= c < |channels| ==> n <= |channels[c]|
  {
    if n == 0 then [] else Interleave(channels, n - 1) + Frame(channels, n - 1)
  }

  lemma {:induction false} MulStep(i: nat, n: nat, width: nat)
    requires i < n
    ensures i * width + width <= n * width
    decreases n - i
  {
    if i + 1 < n {
      MulStep(i + 1, n, width);
    }
  }

  lemma {:induction false} InterleaveLength(channels: seq<seq<real>>, n: nat)
    requires forall ch :: 0 <= ch < |channels| ==> n <= |channels[ch]|
    ensures |Interleave(channels, n)| == n * |channels|
  {
    if n > 0 {
      InterleaveLength(channels, n - 1);
    }
  }

  /** Interleaving has frames * channels samples, and channel c of frame i
      lands at i * channels + c. */
  lemma {:induction false} InterleaveAt(channels: seq<seq<real>>, n: nat, i: nat, c: nat)
    requires forall ch :: 0 <= ch < |channels| ==> n <= |channels[ch]|
    requires i < n && c < |channels|
    ensures |Interleave(channels, n)| == n * |channels|
    ensures i * |channels| + c < n * |channels|
    ensures Interleave(channels, n)[i * |channels| + c] == channels[c][i]
  {
    InterleaveLength(channels, n);
    InterleaveLength(channels, n - 1);
    MulStep(i, n, |channels|);
    if i < n - 1 {
      InterleaveAt(channels, n - 1, i, c);
    }
  }

  // ---------------------------------------------------------------------
  // The DataView setters on a byte array

  /** s with the bytes from `at` on replaced by `part`. */
  function Splice(s: seq<Byte>, at: nat, part: seq<Byte>): (r: seq<Byte>)
    requires at + |part| <= |s|
    ensures |r| == |s|
  {
    s[..at] + part + s[at + |part|..]
  }

  /** Two adjacent writes are one write of both parts. */
  lemma SpliceAdjacent(s: seq<Byte>, at: nat, a: seq<Byte>, b: seq<Byte>)
    requires at + |a| + |b| <= |s|
    ensures Splice(Splice(s, at, a), at + |a|, b) == Splice(s, at, a + b)
  {
    var t := Splice(s, at, a);
    assert t[..at + |a|] == s[..at] + a;
    assert t[at + |a| + |b|..] == s[at + |a| + |b|..];
  }

  /** view.setUint8(offset, v). */
  method SetUint8(view: array<Byte>, offset: nat, v: int)
    requires offset < view.Length
    modifies view
    ensures view[..] == Splice(old(view[..]), offset, [v % 0x100])
  {
    view[offset] := v % 0x100;
  }

  /** view.setUint16(offset, v, true), and setInt16 of an integer. */
  method SetUint16(view: array<Byte>, offset: nat, v: int)
    requires offset + 2 <= view.Length
    modifies view
    ensures view[..] == Splice(old(view[..]), offset, LE16(v))
  {
    var u := U16(v);
    view[offset] := u % 0x100;
    view[offset + 1] := u / 0x100;
  }

  /** view.setUint32(offset, v, true). */
  method SetUint32(view: array<Byte>, offset: nat, v: int)
    requires offset + 4 <= view.Length
    modifies view
    ensures view[..] == Splice(old(view[..]), offset, LE32(v))
  {
    var u := U32(v);
    ghost var s := view[..];
    SetUint16(view, offset, u % 0x1_0000);
    SetUint16(view, offset + 2, u / 0x1_0000);
    SpliceAdjacent(s, offset, LE16(u % 0x1_0000), LE16(u / 0x1_0000));
  }

  /** view.setInt16(offset, x, true) for a Number x: ToInt16 truncates
      toward zero and keeps the value modulo 2^16. */
  method SetInt16(view: array<Byte>, offset: nat, x: real)
    requires offset + 2 <= view.Length
    modifies view
    ensures view[..] == Splice(old(view[..]), offset, LE16(Trunc(x)))
  {
    SetUint16(view, offset, Trunc(x));
  }

  /** writeString: one byte per character from `offset` on. */
  method WriteString(view: array<Byte>, offset: nat, s: string)
    requires offset + |s| <= view.Length
    modifies view
    ensures view[..] == Splice(old(view[..]), offset, Ascii(s))
  {
    ghost var before := view[..];
    ghost var written: seq<Byte> := [];
    for i := 0 to |s|
      invariant written == Ascii(s)[..i]
      invariant view[..] == Splice(before, offset, written)
    {
      var b := (s[i] as int) % 0x100;
      SetUint8(view, offset + i, s[i] as int);
      SpliceAdjacent(before, offset, written, [b]);
      assert Ascii(s)[..i + 1] == written + [b];
      written := written + [b];
    }
    assert Ascii(s)[..|s|] == Ascii(s);
  }

  // ---------------------------------------------------------------------
  // The finaliser

  /** The RIFF chunk descriptor: bytes 0 to 11. */
  method WriteRiffDescriptor(view: array<Byte>, dataSize: nat)
    requires HeaderSize <= view.Length
    modifies view
    ensures view[..] == Splice(old(view[..]), 0, RiffDescriptor(dataSize))
  {
    ghost var s := view[..];
    WriteString(view, 0, "RIFF");
    SetUint32(view, 4, 36 + dataSize);
    SpliceAdjacent(s, 0, Ascii("RIFF"), LE32(36 + dataSize));
    WriteString(view, 8, "WAVE");
    SpliceAdjacent(s, 0, Ascii("RIFF") + LE32(36 + dataSize), Ascii("WAVE"));
  }

  /** The first half of the "fmt " sub-chunk: bytes 12 to 23. */
  method WriteFormatTag(view: array<Byte>, numChannels: nat)
    requires HeaderSize <= view.Length
    modifies view
    ensures view[..] == Splice(old(view[..]), 12, Ascii("fmt ") + LE32(16) + LE16(1) + LE16(numChannels))
  {
    ghost var s := view[..];
    WriteString(view, 12, "fmt ");
    SetUint32(view, 16, 16);
    SpliceAdjacent(s, 12, Ascii("fmt "), LE32(16));
    SetUint16(view, 20, 1);
    SpliceAdjacent(s, 12, Ascii("fmt ") + LE32(16), LE16(1));
    SetUint16(view, 22, numChannels);
    SpliceAdjacent(s, 12, Ascii("fmt ") + LE32(16) + LE16(1), LE16(numChannels));
  }

  /** The second half of the "fmt " sub-chunk: bytes 24 to 35, with
      blockAlign = channels * 2 and byteRate = sampleRate * blockAlign. */
  method WriteFormatRates(view: array<Byte>, sampleRate: nat, numChannels: nat)
    requires HeaderSize <= view.Length
    modifies view
    ensures view[..] == Splice(old(view[..]), 24,
      LE32(sampleRate) + LE32(sampleRate * numChannels * 2) + LE16(numChannels * 2) + LE16(16))
  {
    var bitsPerSample := 16;
    var bytesPerSample := bitsPerSample / 8;
    var blockAlign := numChannels * bytesPerSample;
    var byteRate := sampleRate * blockAlign;
    assert byteRate == sampleRate * numChannels * 2;
    ghost var s := view[..];
    SetUint32(view, 24, sampleRate);
    SetUint32(view, 28, byteRate);
    SpliceAdjacent(s, 24, LE32(sampleRate), LE32(byteRate));
    SetUint16(view, 32, blockAlign);
    SpliceAdjacent(s, 24, LE32(sampleRate) + LE32(byteRate), LE16(blockAlign));
    SetUint16(view, 34, bitsPerSample);
    SpliceAdjacent(s, 24, LE32(sampleRate) + LE32(byteRate) + LE16(blockAlign), LE16(bitsPerSample));
  }

  /** The "data" sub-chunk header: bytes 36 to 43. */
  method WriteDataHeader(view: array<Byte>, dataSize: nat)
    requires HeaderSize <= view.Length
    modifies view
    ensures view[..] == Splice(old(view[..]), 36, DataChunkHeader(dataSize))
  {
    ghost var s := view[..];
    WriteString(view, 36, "data");
    SetUint32(view, 40, dataSize);
    SpliceAdjacent(s, 36, Ascii("data"), LE32(dataSize));
  }

  /** The header writes in the finaliser's order leave the header in bytes
      0 to 43 and nothing else changed. */
  method WriteHeader(view: array<Byte>, sampleRate: nat, numChannels: nat, dataSize: nat)
    requires HeaderSize <= view.Length
    modifies view
    ensures view[..] == Splice(old(view[..]), 0, Header(sampleRate, numChannels, dataSize))
  {
    ghost var s := view[..];
    ghost var riff := RiffDescriptor(dataSize);
    ghost var tag := Ascii("fmt ") + LE32(16) + LE16(1) + LE16(numChannels);
    ghost var rates := LE32(sampleRate) + LE32(sampleRate * numChannels * 2) + LE16(numChannels * 2) + LE16(16);
    WriteRiffDescriptor(view, dataSize);
    WriteFormatTag(view, numChannels);
    SpliceAdjacent(s, 0, riff, tag);
    WriteFormatRates(view, sampleRate, numChannels);
    SpliceAdjacent(s, 0, riff + tag, rates);
    assert riff + tag + rates == riff + FormatChunk(sampleRate, numChannels);
    WriteDataHeader(view, dataSize);
    SpliceAdjacent(s, 0, riff + FormatChunk(sampleRate, numChannels), DataChunkHeader(dataSize));
  }

  /** n zero bytes, the content of a new ArrayBuffer. */
  function Zeros(n: nat): (r: seq<Byte>)
    ensures |r| == n
  {
    seq(n, _ => 0)
  }

  /** Writing right after a finished prefix overwrites the start of the rest. */
  lemma SpliceAfter(done: seq<Byte>, part: seq<Byte>, rest: seq<Byte>)
    requires |part| <= |rest|
    ensures Splice(done + rest, |done|, part) == done + part + rest[|part|..]
  {
    assert (done + rest)[..|done|] == done;
    assert (done + rest)[|done| + |part|..] == rest[|part|..];
  }

  /** One more sample appended to the payload. */
  lemma PcmBytesSnoc(samples: seq<real>, i: nat)
    requires i < |samples|
    ensures PcmBytes(samples[..i + 1]) == PcmBytes(samples[..i]) + SampleBytes(samples[i])
  {
    assert samples[..i + 1][..i] == samples[..i];
  }

  /** createWAVFromFloat32Array: a zero-filled buffer of 44 + 2n bytes, the
      header, then each sample clamped, scaled and stored as int16. */
  method CreateWavFromFloat32Array(samples: array<real>, sampleRate: nat, numChannels: nat)
    returns (buffer: array<Byte>)
    ensures buffer[..] == WavFile(samples[..], sampleRate, numChannels)
  {
    var dataSize := samples.Length * 2;
    buffer := new Byte[HeaderSize + dataSize](_ => 0);
    ghost var header := Header(sampleRate, numChannels, dataSize);
    assert buffer[..] == [] + Zeros(HeaderSize + dataSize);
    WriteHeader(buffer, sampleRate, numChannels, dataSize);
    SpliceAfter([], header, Zeros(HeaderSize + dataSize));
    assert Zeros(HeaderSize + dataSize)[HeaderSize..] == Zeros(dataSize);
    var offset := HeaderSize;
    var scale := Scale as real;
    for i := 0 to samples.Length
      invariant offset == HeaderSize + 2 * i
      invariant buffer[..] == header + PcmBytes(samples[..i]) + Zeros(dataSize - 2 * i)
    {
      var sample := Clamp(samples[i]);
      sample := sample * scale;
      StoreSample(buffer, header, samples[..], i, offset, sample);
      offset := offset + 2;
    }
    assert samples[..samples.Length] == samples[..];
  }

  /** One iteration of the sample loop: the next two zero bytes become the
      sample's int16. */
  method StoreSample(buffer: array<Byte>, ghost header: seq<Byte>, ghost samples: seq<real>, ghost i: nat,
                     offset: nat, sample: real)
    requires i < |samples| && offset == |header| + 2 * i
    requires sample == Clamp(samples[i]) * Scale as real
    requires buffer[..] == header + PcmBytes(samples[..i]) + Zeros(2 * |samples| - 2 * i)
    modifies buffer
    ensures buffer[..] == header + PcmBytes(samples[..i + 1]) + Zeros(2 * |samples| - 2 * (i + 1))
  {
    ghost var done := header + PcmBytes(samples[..i]);
    SetInt16(buffer, offset, sample);
    SpliceAfter(done, SampleBytes(samples[i]), Zeros(2 * |samples| - 2 * i));
    assert Zeros(2 * |samples| - 2 * i)[2..] == Zeros(2 * |samples| - 2 * (i + 1));
    PcmBytesSnoc(samples, i);
  }


  /** The inner loop of audioBufferToWAV: frame i into its slot. */
  method WriteFrame(interleaved: array<real>, channels: seq<seq<real>>, i: nat, length: nat)
    requires forall c :: 0 <= c < |channels| ==> length <= |channels[c]|
    requires i < length && interleaved.Length == length * |channels|
    modifies interleaved
    ensures i * |channels| + |channels| <= interleaved.Length
    ensures interleaved[..i * |channels|] == old(interleaved[..i * |channels|])
    ensures interleaved[i * |channels|..i * |channels| + |channels|] == Frame(channels, i)
  {
    var numChannels := |channels|;
    MulStep(i, length, numChannels);
    ghost var base := i * numChannels;
    for channel := 0 to numChannels
      invariant interleaved[..base] == old(interleaved[..base])
      invariant forall c :: 0 <= c < channel ==> interleaved[base + c] == channels[c][i]
    {
      interleaved[i * numChannels + channel] := channels[channel][i];
    }
  }

  /** A prefix followed by the next block is the longer prefix. */
  lemma FrameAppended(a: seq<real>, base: nat, done: seq<real>, frame: seq<real>)
    requires base + |frame| <= |a| && a[..base] == done && a[base..base + |frame|] == frame
    ensures a[..base + |frame|] == done + frame
  {
    assert a[..base + |frame|] == a[..base] + a[base..base + |frame|];
  }

  /** One turn of that loop: frame i follows the frames before it. */
  method AppendFrame(interleaved: array<real>, channels: seq<seq<real>>, i: nat, length: nat)
    requires forall c :: 0 <= c < |channels| ==> length <= |channels[c]|
    requires i < length && interleaved.Length == length * |channels|
    requires i * |channels| <= interleaved.Length
    requires interleaved[..i * |channels|] == Interleave(channels, i)
    modifies interleaved
    ensures (i + 1) * |channels| <= interleaved.Length
    ensures interleaved[..(i + 1) * |channels|] == Interleave(channels, i + 1)
  {
    ghost var base := i * |channels|;
    InterleaveLength(channels, i);
    WriteFrame(interleaved, channels, i, length);
    FrameAppended(interleaved[..], base, Interleave(channels, i), Frame(channels, i));
    assert (i + 1) * |channels| == base + |channels|;
  }

  /** The frame-major interleaving loop of audioBufferToWAV. */
  method InterleaveChannels(audio: PcmBuffer) returns (interleaved: array<real>)
    ensures interleaved[..] == Interleave(audio.channels, audio.length)
  {
    var channels, length := audio.channels, audio.length;
    var numChannels := |channels|;
    assert forall c :: 0 <= c < numChannels ==> length <= |channels[c]|;
    interleaved := new real[length * numChannels];
    for i := 0 to length
      invariant i * numChannels <= interleaved.Length
      invariant interleaved[..i * numChannels] == Interleave(channels, i)
    {
      AppendFrame(interleaved, channels, i, length);
    }
    assert interleaved[..] == interleaved[..length * numChannels];
  }


  /** audioBufferToWAV: interleave the channels, then serialise them. */
  method AudioBufferToWav(audio: PcmBuffer) returns (wav: array<Byte>)
    ensures wav[..] == WavFile(Interleave(audio.channels, audio.length), audio.sampleRate, |audio.channels|)
  {
    var interleaved := InterleaveChannels(audio);
    wav := CreateWavFromFloat32Array(interleaved, audio.sampleRate, |audio.channels|);
  }
}
