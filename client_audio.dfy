/** The browser side of recording (static/js/script.js): flattening the
    captured sample buffers and encoding them as a RIFF WAVE file, the
    canonical 44-byte PCM header followed by 16-bit little-endian samples.
    An `ArrayBuffer` seen through a `DataView` is an array of bytes; a
    `Float32Array` is an array of 32-bit float bit patterns. */
module ClientAudio {

  type byte = x: int | 0 <= x < 256
  type Int16 = x: int | -0x8000 <= x < 0x8000
  /** The bit pattern of one `Float32Array` element; all zeros is +0.0. */
  type Float32 = bv32

  const HeaderSize: nat := 44

  /** `s` with `b` written over it from `off` on. */
  function Splice<T>(s: seq<T>, off: nat, b: seq<T>): (r: seq<T>)
    requires off + |b| <= |s|
    ensures |r| == |s|
  {
    s[..off] + b + s[off + |b|..]
  }

  /** Byte k of a splice: from `b` inside the written span, from `s` elsewhere. */
  lemma SpliceAt<T>(s: seq<T>, off: nat, b: seq<T>)
    requires off + |b| <= |s|
    ensures forall k :: 0 <= k < off ==> Splice(s, off, b)[k] == s[k]
    ensures forall k :: off <= k < off + |b| ==> Splice(s, off, b)[k] == b[k - off]
    ensures forall k :: off + |b| <= k < |s| ==> Splice(s, off, b)[k] == s[k]
  {
  }

  /** A write over the whole sequence replaces it. */
  lemma SpliceWhole<T>(s: seq<T>, b: seq<T>)
    requires |b| == |s|
    ensures Splice(s, 0, b) == b
  {
    assert s[..0] + b + s[|b|..] == b;
  }

  /** Two adjacent writes are one write of both. */
  lemma SpliceSplice<T>(s: seq<T>, off: nat, a: seq<T>, b: seq<T>)
    requires off + |a| + |b| <= |s|
    ensures Splice(Splice(s, off, a), off + |a|, b) == Splice(s, off, a + b)
  {
    var l, r := Splice(Splice(s, off, a), off + |a|, b), Splice(s, off, a + b);
    SpliceAt(s, off, a);
    SpliceAt(Splice(s, off, a), off + |a|, b);
    SpliceAt(s, off, a + b);
    assert forall k :: 0 <= k < |s| ==> l[k] == r[k];
  }

  /** A sequence that agrees with `b` inside the span and with `s` outside it
      is the splice. */
  lemma SplicePointwise<T>(s: seq<T>, off: nat, b: seq<T>, r: seq<T>)
    requires off + |b| <= |s| && |r| == |s|
    requires forall k :: 0 <= k < |s| ==> r[k] == if off <= k < off + |b| then b[k - off] else s[k]
    ensures r == Splice(s, off, b)
  {
    SpliceAt(s, off, b);
  }

  /** `setUint16(off, x, true)`: ToUint16, low byte first. */
  function Uint16LE(x: int): (bs: seq<byte>)
    ensures |bs| == 2
  {
    var v := x % 0x1_0000;
    [v % 256, v / 256]
  }

  /** `setUint32(off, x, true)`: ToUint32, least significant byte first. */
  function Uint32LE(x: int): (bs: seq<byte>)
    ensures |bs| == 4
  {
    var v := x % 0x1_0000_0000;
    [v % 256, (v / 256) % 256, (v / 0x1_0000) % 256, v / 0x100_0000]
  }

  /** `setInt16(off, x, true)`: two's complement, low byte first. */
  function Int16LE(x: Int16): (bs: seq<byte>)
    ensures |bs| == 2
  {
    Uint16LE(x)
  }

  /** `string.charCodeAt(i)` as `setUint8` stores it (its low 8 bits). */
  function CharCode(c: char): (b: byte)
    ensures (c as int) < 256 ==> b == c as int
  {
    (c as int) % 256
  }

  function CharCodes(s: string): (bs: seq<byte>)
    ensures |bs| == |s|
    ensures forall i :: 0 <= i < |s| ==> bs[i] == CharCode(s[i])
  {
    seq(|s|, i requires 0 <= i < |s| => CharCode(s[i]))
  }

  /** Little-endian readers for the header's fields, as a WAVE reader sees them. */
  function ReadUint16LE(bs: seq<byte>, off: nat): nat
    requires off + 2 <= |bs|
  {
    var b0, b1: int := bs[off], bs[off + 1];
    b0 + 256 * b1
  }

  function ReadUint32LE(bs: seq<byte>, off: nat): nat
    requires off + 4 <= |bs|
  {
    var b0, b1, b2, b3: int := bs[off], bs[off + 1], bs[off + 2], bs[off + 3];
    b0 + 256 * b1 + 0x1_0000 * b2 + 0x100_0000 * b3
  }

  function ReadInt16LE(bs: seq<byte>, off: nat): int
    requires off + 2 <= |bs|
  {
    var u := ReadUint16LE(bs, off);
    if u < 0x8000 then u else u - 0x1_0000
  }

  lemma ReadUint16LEOf(x: int)
    ensures ReadUint16LE(Uint16LE(x), 0) == x % 0x1_0000
  {
  }

  lemma ReadUint32LEOf(x: int)
    ensures ReadUint32LE(Uint32LE(x), 0) == x % 0x1_0000_0000
  {
    var v := x % 0x1_0000_0000;
    var b0, b1, b2, b3 := v % 256, (v / 256) % 256, (v / 0x1_0000) % 256, v / 0x100_0000;
    assert v / 256 == b1 + 256 * (v / 0x1_0000);
    assert v / 0x1_0000 == b2 + 256 * b3;
    assert v == b0 + 256 * (v / 256);
  }

  lemma ReadInt16LEOf(x: Int16)
    ensures ReadInt16LE(Int16LE(x), 0) == x
  {
    ReadUint16LEOf(x);
  }

  /** The 44-byte header for `n` samples at `sampleRate`: RIFF chunk with its
      length, WAVE type, a 16-byte `fmt ` chunk (PCM, mono, sample rate, byte
      rate, block align 2, 16 bits), then the `data` chunk id and its length. */
  function WavHeader(n: nat, sampleRate: nat): (h: seq<byte>)
    ensures |h| == HeaderSize
  {
    RiffDescriptor(n) + FmtChunk(sampleRate) + DataChunkHeader(n)
  }

  /** Bytes 0-11: "RIFF", the RIFF chunk length 36 + 2n, "WAVE". */
  function RiffDescriptor(n: nat): (bs: seq<byte>)
    ensures |bs| == 12
  {
    CharCodes("RIFF") + Uint32LE(36 + n * 2) + CharCodes("WAVE")
  }

  /** Bytes 12-35: "fmt ", its length 16, format 1 (PCM), 1 channel, the
      sample rate, the byte rate (rate * 2), block align 2, 16 bits per sample. */
  function FmtChunk(sampleRate: nat): (bs: seq<byte>)
    ensures |bs| == 24
  {
    CharCodes("fmt ") + Uint32LE(16) + Uint16LE(1) + Uint16LE(1)
    + Uint32LE(sampleRate) + Uint32LE(sampleRate * 2) + Uint16LE(2) + Uint16LE(16)
  }

  /** Bytes 36-43: "data" and the data length 2n. */
  function DataChunkHeader(n: nat): (bs: seq<byte>)
    ensures |bs| == 8
  {
    CharCodes("data") + Uint32LE(n * 2)
  }

  /** The samples as 16-bit PCM, in order; `convert` stands for the clamping
      and scaling of `floatTo16BitPCM`. */
  function PcmBytes(samples: seq<Float32>, convert: Float32 -> Int16): (bs: seq<byte>)
    ensures |bs| == 2 * |samples|
  {
    if samples == [] then []
    else PcmBytes(samples[..|samples| - 1], convert) + Int16LE(convert(samples[|samples| - 1]))
  }

  /** The file `encodeWAV(samples, sampleRate)` produces. */
  function WavBytes(samples: seq<Float32>, sampleRate: nat, convert: Float32 -> Int16): (r: seq<byte>)
    ensures |r| == HeaderSize + 2 * |samples|
    ensures r[..HeaderSize] == WavHeader(|samples|, sampleRate)
    ensures r[HeaderSize..] == PcmBytes(samples, convert)
  {
    WavHeader(|samples|, sampleRate) + PcmBytes(samples, convert)
  }

  lemma {:induction false} PcmBytesAt(samples: seq<Float32>, convert: Float32 -> Int16, i: nat)
    requires i < |samples|
    ensures PcmBytes(samples, convert)[2 * i..2 * i + 2] == Int16LE(convert(samples[i]))
    decreases |samples|
  {
    var init := samples[..|samples| - 1];
    if i < |samples| - 1 {
      PcmBytesAt(init, convert, i);
      assert init[i] == samples[i];
    }
  }

  lemma HeaderLayout(n: nat, sampleRate: nat)
    ensures var h := WavHeader(n, sampleRate);
      |h| == HeaderSize &&
      h[0..4] == CharCodes("RIFF") && h[4..8] == Uint32LE(36 + n * 2) &&
      h[8..12] == CharCodes("WAVE") && h[12..16] == CharCodes("fmt ") &&
      h[16..20] == Uint32LE(16) && h[20..22] == Uint16LE(1) && h[22..24] == Uint16LE(1) &&
      h[24..28] == Uint32LE(sampleRate) && h[28..32] == Uint32LE(sampleRate * 2) &&
      h[32..34] == Uint16LE(2) && h[34..36] == Uint16LE(16) &&
      h[36..40] == CharCodes("data") && h[40..44] == Uint32LE(n * 2)
  {
  }

  /** A 16-bit field inside a larger sequence reads back as its value. */
  lemma ReadUint16At(bs: seq<byte>, off: nat, x: int)
    requires off + 2 <= |bs| && bs[off..off + 2] == Uint16LE(x)
    ensures ReadUint16LE(bs, off) == x % 0x1_0000
  {
    ReadUint16LEOf(x);
    assert bs[off] == Uint16LE(x)[0] && bs[off + 1] == Uint16LE(x)[1];
  }

  /** A 32-bit field inside a larger sequence reads back as its value. */
  lemma ReadUint32At(bs: seq<byte>, off: nat, x: int)
    requires off + 4 <= |bs| && bs[off..off + 4] == Uint32LE(x)
    ensures ReadUint32LE(bs, off) == x % 0x1_0000_0000
  {
    ReadUint32LEOf(x);
    var f := Uint32LE(x);
    assert bs[off] == f[0] && bs[off + 1] == f[1] && bs[off + 2] == f[2] && bs[off + 3] == f[3];
  }

  /** The header's size fields read back as the values `encodeWAV` writes:
      36 + 2n at offset 4 and 2n at offset 40, modulo 2^32. */
  lemma HeaderSizeFields(n: nat, sampleRate: nat)
    ensures var h := WavHeader(n, sampleRate);
      |h| == HeaderSize &&
      ReadUint32LE(h, 4) == (36 + n * 2) % 0x1_0000_0000 &&
      ReadUint32LE(h, 40) == (n * 2) % 0x1_0000_0000
  {
    var h := WavHeader(n, sampleRate);
    HeaderLayout(n, sampleRate);
    ReadUint32At(h, 4, 36 + n * 2);
    ReadUint32At(h, 40, n * 2);
  }

  /** The fmt chunk's constant fields read back as the values `encodeWAV`
      writes: length 16, format 1 (PCM), 1 channel, block align 2 and 16
      bits per sample. */
  lemma HeaderFormatFields(n: nat, sampleRate: nat)
    ensures var h := WavHeader(n, sampleRate);
      |h| == HeaderSize &&
      ReadUint32LE(h, 16) == 16 &&
      ReadUint16LE(h, 20) == 1 && ReadUint16LE(h, 22) == 1 &&
      ReadUint16LE(h, 32) == 2 && ReadUint16LE(h, 34) == 16
  {
    var h := WavHeader(n, sampleRate);
    HeaderLayout(n, sampleRate);
    ReadUint32At(h, 16, 16);
    ReadUint16At(h, 20, 1);
    ReadUint16At(h, 22, 1);
    ReadUint16At(h, 32, 2);
    ReadUint16At(h, 34, 16);
  }

  /** The fmt chunk's rate fields read back as the sample rate and the byte
      rate, twice the sample rate, each modulo 2^32. */
  lemma HeaderRateFields(n: nat, sampleRate: nat)
    ensures var h := WavHeader(n, sampleRate);
      |h| == HeaderSize &&
      ReadUint32LE(h, 24) == sampleRate % 0x1_0000_0000 &&
      ReadUint32LE(h, 28) == (sampleRate * 2) % 0x1_0000_0000
  {
    var h := WavHeader(n, sampleRate);
    HeaderLayout(n, sampleRate);
    ReadUint32At(h, 24, sampleRate);
    ReadUint32At(h, 28, sampleRate * 2);
  }

  /** Sample i reads back from bytes 44+2i and 45+2i, after the header. */
  lemma SampleLayout(samples: seq<Float32>, sampleRate: nat, convert: Float32 -> Int16, i: nat)
    requires i < |samples|
    ensures var w := WavBytes(samples, sampleRate, convert);
            HeaderSize + 2 * i + 2 <= |w| && ReadInt16LE(w, HeaderSize + 2 * i) == convert(samples[i])
  {
    var h, pcm := WavHeader(|samples|, sampleRate), PcmBytes(samples, convert);
    HeaderLayout(|samples|, sampleRate);
    PcmBytesAt(samples, convert, i);
    ReadInt16LEOf(convert(samples[i]));
    var w := h + pcm;
    assert w[HeaderSize + 2 * i] == pcm[2 * i] && w[HeaderSize + 2 * i + 1] == pcm[2 * i + 1];
    assert ReadInt16LE(w, HeaderSize + 2 * i) == ReadInt16LE(pcm[2 * i..2 * i + 2], 0);
  }

  /** The layout a WAVE reader relies on. The file is 44 + 2n bytes; the RIFF
      size at offset 4 is the file length minus 8 and the data size at 40 the
      length minus 44 (each modulo 2^32, as `setUint32` stores it); the fmt
      fields read back as PCM, mono, the sample rate, twice the sample rate,
      block align 2 and 16 bits; and sample i reads back from bytes 44+2i and
      45+2i, after the header. */
  lemma WavLayout(samples: seq<Float32>, sampleRate: nat, convert: Float32 -> Int16)
    ensures var w := WavBytes(samples, sampleRate, convert);
      |w| == HeaderSize + 2 * |samples| &&
      w[0..4] == CharCodes("RIFF") && w[8..12] == CharCodes("WAVE") &&
      w[12..16] == CharCodes("fmt ") && w[36..40] == CharCodes("data") &&
      ReadUint32LE(w, 4) == (|w| - 8) % 0x1_0000_0000 &&
      ReadUint32LE(w, 16) == 16 &&
      ReadUint16LE(w, 20) == 1 && ReadUint16LE(w, 22) == 1 &&
      ReadUint32LE(w, 24) == sampleRate % 0x1_0000_0000 &&
      ReadUint32LE(w, 28) == (sampleRate * 2) % 0x1_0000_0000 &&
      ReadUint16LE(w, 32) == 2 && ReadUint16LE(w, 34) == 16 &&
      ReadUint32LE(w, 40) == (|w| - HeaderSize) % 0x1_0000_0000 &&
      forall i :: 0 <= i < |samples| ==> ReadInt16LE(w, HeaderSize + 2 * i) == convert(samples[i])
  {
    var n := |samples|;
    var h, pcm := WavHeader(n, sampleRate), PcmBytes(samples, convert);
    var w := h + pcm;
    HeaderLayout(n, sampleRate);
    HeaderSizeFields(n, sampleRate);
    HeaderFormatFields(n, sampleRate);
    HeaderRateFields(n, sampleRate);
    assert w[..HeaderSize] == h;
    assert w[0..4] == h[0..4] && w[8..12] == h[8..12] && w[12..16] == h[12..16] && w[36..40] == h[36..40];
    assert ReadUint32LE(w, 4) == ReadUint32LE(h, 4);
    assert ReadUint32LE(w, 16) == ReadUint32LE(h, 16);
    assert ReadUint16LE(w, 20) == ReadUint16LE(h, 20);
    assert ReadUint16LE(w, 22) == ReadUint16LE(h, 22);
    assert ReadUint32LE(w, 24) == ReadUint32LE(h, 24);
    assert ReadUint32LE(w, 28) == ReadUint32LE(h, 28);
    assert ReadUint16LE(w, 32) == ReadUint16LE(h, 32);
    assert ReadUint16LE(w, 34) == ReadUint16LE(h, 34);
    assert ReadUint32LE(w, 40) == ReadUint32LE(h, 40);
    forall i | 0 <= i < n
      ensures ReadInt16LE(w, HeaderSize + 2 * i) == convert(samples[i])
    {
      SampleLayout(samples, sampleRate, convert, i);
    }
  }

  /** `writeString(view, offset, string)`: byte offset+i becomes the code of
      string[i]; no other byte changes. */
  method WriteString(view: array<byte>, offset: nat, s: string)
    requires offset + |s| <= view.Length
    modifies view
    ensures view[..] == Splice(old(view[..]), offset, CharCodes(s))
  {
    var i := 0;
    while i < |s|
      invariant 0 <= i <= |s|
      invariant forall k :: 0 <= k < view.Length ==>
                  view[k] == if offset <= k < offset + i then CharCode(s[k - offset]) else old(view[k])
    {
      view[offset + i] := CharCode(s[i]);
      i := i + 1;
    }
    SplicePointwise(old(view[..]), offset, CharCodes(s), view[..]);
  }

  /** `view.setUint16(offset, x, true)` */
  method SetUint16(view: array<byte>, offset: nat, x: int)
    requires offset + 2 <= view.Length
    modifies view
    ensures view[..] == Splice(old(view[..]), offset, Uint16LE(x))
  {
    var bs := Uint16LE(x);
    view[offset], view[offset + 1] := bs[0], bs[1];
    SpliceAt(old(view[..]), offset, bs);
    assert view[..] == Splice(old(view[..]), offset, bs);
  }

  /** `view.setUint32(offset, x, true)` */
  method SetUint32(view: array<byte>, offset: nat, x: int)
    requires offset + 4 <= view.Length
    modifies view
    ensures view[..] == Splice(old(view[..]), offset, Uint32LE(x))
  {
    var bs := Uint32LE(x);
    view[offset], view[offset + 1], view[offset + 2], view[offset + 3] := bs[0], bs[1], bs[2], bs[3];
    SpliceAt(old(view[..]), offset, bs);
    assert view[..] == Splice(old(view[..]), offset, bs);
  }

  /** `view.setInt16(offset, x, true)` */
  method SetInt16(view: array<byte>, offset: nat, x: Int16)
    requires offset + 2 <= view.Length
    modifies view
    ensures view[..] == Splice(old(view[..]), offset, Int16LE(x))
  {
    SetUint16(view, offset, x);
  }

  /** `floatTo16BitPCM(output, offset, input)`: sample i goes to bytes
      offset+2i and offset+2i+1, in order; nothing else changes. */
  method FloatTo16BitPCM(output: array<byte>, offset: nat, input: array<Float32>, convert: Float32 -> Int16)
    requires offset + 2 * input.Length <= output.Length
    modifies output
    ensures output[..] == Splice(old(output[..]), offset, PcmBytes(input[..], convert))
  {
    ghost var pcm := PcmBytes(input[..], convert);
    var i, off := 0, offset;
    while i < input.Length
      invariant 0 <= i <= input.Length && off == offset + 2 * i
      invariant forall k :: 0 <= k < output.Length ==>
                  output[k] == if offset <= k < off then pcm[k - offset] else old(output[k])
    {
      ghost var before := output[..];
      SetInt16(output, off, convert(input[i]));
      SpliceAt(before, off, Int16LE(convert(input[i])));
      PcmBytesAt(input[..], convert, i);
      assert pcm[2 * i] == Int16LE(convert(input[i]))[0] && pcm[2 * i + 1] == Int16LE(convert(input[i]))[1];
      i, off := i + 1, off + 2;
    }
    SplicePointwise(old(output[..]), offset, pcm, output[..]);
  }

  /** Lines 188-192 of `encodeWAV`: the RIFF descriptor. */
  method WriteRiffDescriptor(view: array<byte>, n: nat)
    requires 12 <= view.Length
    modifies view
    ensures view[..] == Splice(old(view[..]), 0, RiffDescriptor(n))
  {
    ghost var s := view[..];
    WriteString(view, 0, "RIFF");
    SetUint32(view, 4, 36 + n * 2);
    SpliceSplice(s, 0, CharCodes("RIFF"), Uint32LE(36 + n * 2));
    WriteString(view, 8, "WAVE");
    SpliceSplice(s, 0, CharCodes("RIFF") + Uint32LE(36 + n * 2), CharCodes("WAVE"));
  }

  /** Lines 194-208 of `encodeWAV`: the format chunk. */
  method WriteFmtChunk(view: array<byte>, sampleRate: nat)
    requires 36 <= view.Length
    modifies view
    ensures view[..] == Splice(old(view[..]), 12, FmtChunk(sampleRate))
  {
    ghost var s := view[..];
    WriteString(view, 12, "fmt ");
    ghost var done := CharCodes("fmt ");
    SetUint32(view, 16, 16);
    SpliceSplice(s, 12, done, Uint32LE(16));
    done := done + Uint32LE(16);
    SetUint16(view, 20, 1);
    SpliceSplice(s, 12, done, Uint16LE(1));
    done := done + Uint16LE(1);
    SetUint16(view, 22, 1);
    SpliceSplice(s, 12, done, Uint16LE(1));
    done := done + Uint16LE(1);
    SetUint32(view, 24, sampleRate);
    SpliceSplice(s, 12, done, Uint32LE(sampleRate));
    done := done + Uint32LE(sampleRate);
    SetUint32(view, 28, sampleRate * 2);
    SpliceSplice(s, 12, done, Uint32LE(sampleRate * 2));
    done := done + Uint32LE(sampleRate * 2);
    SetUint16(view, 32, 2);
    SpliceSplice(s, 12, done, Uint16LE(2));
    done := done + Uint16LE(2);
    SetUint16(view, 34, 16);
    SpliceSplice(s, 12, done, Uint16LE(16));
    done := done + Uint16LE(16);
    assert done == FmtChunk(sampleRate);
  }

  /** Lines 210-212 of `encodeWAV`: the data chunk's id and length. */
  method WriteDataChunkHeader(view: array<byte>, n: nat)
    requires 44 <= view.Length
    modifies view
    ensures view[..] == Splice(old(view[..]), 36, DataChunkHeader(n))
  {
    ghost var s := view[..];
    WriteString(view, 36, "data");
    SetUint32(view, 40, n * 2);
    SpliceSplice(s, 36, CharCodes("data"), Uint32LE(n * 2));
  }

  /** `encodeWAV(samples, sampleRate)`: a zero-filled buffer of 44 + 2n
      bytes, the header fields written in order, then the samples. */
  method EncodeWav(samples: array<Float32>, sampleRate: nat, convert: Float32 -> Int16)
    returns (buffer: array<byte>)
    ensures fresh(buffer)
    ensures buffer[..] == WavBytes(samples[..], sampleRate, convert)
  {
    var n := samples.Length;
    buffer := new byte[HeaderSize + n * 2](_ => 0);
    ghost var zeros := buffer[..];
    WriteRiffDescriptor(buffer, n);
    WriteFmtChunk(buffer, sampleRate);
    SpliceSplice(zeros, 0, RiffDescriptor(n), FmtChunk(sampleRate));
    ghost var done := RiffDescriptor(n) + FmtChunk(sampleRate);
    WriteDataChunkHeader(buffer, n);
    SpliceSplice(zeros, 0, done, DataChunkHeader(n));
    done := done + DataChunkHeader(n);
    assert done == WavHeader(n, sampleRate);

    FloatTo16BitPCM(buffer, HeaderSize, samples, convert);
    SpliceSplice(zeros, 0, done, PcmBytes(samples[..], convert));
    done := done + PcmBytes(samples[..], convert);
    SpliceWhole(zeros, done);
  }

  /** The left fold `leftchannel.reduce((acc, buf) => acc + buf.length, 0)`. */
  function TotalLength(buffers: seq<seq<Float32>>): (r: nat)
    // Every buffer fits within the running total.
    ensures forall i :: 0 <= i < |buffers| ==> |buffers[i]| <= r
  {
    if buffers == [] then 0 else TotalLength(buffers[..|buffers| - 1]) + |buffers[|buffers| - 1]|
  }

  /** The buffers one after another. */
  function Concat(buffers: seq<seq<Float32>>): (r: seq<Float32>)
    ensures |r| == TotalLength(buffers)
  {
    if buffers == [] then [] else Concat(buffers[..|buffers| - 1]) + buffers[|buffers| - 1]
  }

  function Zeros(n: nat): (r: seq<Float32>)
    ensures |r| == n && forall k :: 0 <= k < n ==> r[k] == 0
  {
    seq(n, _ => 0)
  }

  lemma {:induction false} TotalLengthPrefix(buffers: seq<seq<Float32>>, i: nat)
    requires i <= |buffers|
    ensures TotalLength(buffers[..i]) <= TotalLength(buffers)
    decreases |buffers|
  {
    if i < |buffers| {
      var init := buffers[..|buffers| - 1];
      assert init[..i] == buffers[..i];
      TotalLengthPrefix(init, i);
    } else {
      assert buffers[..i] == buffers;
    }
  }

  /** `result.set(source, offset)` on a `Float32Array`. */
  method SetFrom(result: array<Float32>, source: seq<Float32>, offset: nat)
    requires offset + |source| <= result.Length
    modifies result
    ensures result[..] == Splice(old(result[..]), offset, source)
  {
    var j := 0;
    while j < |source|
      invariant 0 <= j <= |source|
      invariant forall k :: 0 <= k < result.Length ==>
                  result[k] == if offset <= k < offset + j then source[k - offset] else old(result[k])
    {
      result[offset + j] := source[j];
      j := j + 1;
    }
    SplicePointwise(old(result[..]), offset, source, result[..]);
  }

  /** One more buffer: the prefix's total length and concatenation grow by it. */
  lemma PrefixStep(buffers: seq<seq<Float32>>, i: nat)
    requires i < |buffers|
    ensures TotalLength(buffers[..i + 1]) == TotalLength(buffers[..i]) + |buffers[i]|
    ensures Concat(buffers[..i + 1]) == Concat(buffers[..i]) + buffers[i]
  {
    assert buffers[..i + 1][..i] == buffers[..i];
  }

  /** Writing `c` at the start of an all-zero sequence leaves zeros after it. */
  lemma SpliceZeros(n: nat, c: seq<Float32>)
    requires |c| <= n
    ensures Splice(Zeros(n), 0, c) == c + Zeros(n - |c|)
  {
    assert Zeros(n)[..0] == [];
    assert Zeros(n)[|c|..] == Zeros(n - |c|);
  }

  /** `flattenArray(channelBuffer, recordingLength)`: the buffers copied one
      after another into a zero-filled array of `recordingLength` samples.
      `Float32Array.set` throws past the end, so the buffers must fit. */
  method FlattenArray(channelBuffer: seq<seq<Float32>>, recordingLength: nat) returns (result: array<Float32>)
    requires TotalLength(channelBuffer) <= recordingLength
    ensures fresh(result)
    ensures result[..] == Concat(channelBuffer) + Zeros(recordingLength - TotalLength(channelBuffer))
  {
    result := new Float32[recordingLength](_ => 0);
    ghost var zeros := Zeros(recordingLength);
    assert result[..] == zeros;
    var offset := 0;
    var i := 0;
    while i < |channelBuffer|
      invariant 0 <= i <= |channelBuffer|
      invariant offset == TotalLength(channelBuffer[..i]) <= recordingLength
      invariant result[..] == Splice(zeros, 0, Concat(channelBuffer[..i]))
    {
      var buffer := channelBuffer[i];
      PrefixStep(channelBuffer, i);
      TotalLengthPrefix(channelBuffer, i + 1);
      SetFrom(result, buffer, offset);
      SpliceSplice(zeros, 0, Concat(channelBuffer[..i]), buffer);
      offset := offset + |buffer|;
      i := i + 1;
    }
    assert channelBuffer[..i] == channelBuffer;
    SpliceZeros(recordingLength, Concat(channelBuffer));
  }

  /** The audio path of `stopRecording`: the recording length is the sum of
      the buffer lengths, so the flattened samples are exactly the buffers
      concatenated, and they are encoded as WAVE. */
  method EncodeRecording(leftchannel: seq<seq<Float32>>, sampleRate: nat, convert: Float32 -> Int16)
    returns (wav: array<byte>)
    ensures fresh(wav)
    ensures wav[..] == WavBytes(Concat(leftchannel), sampleRate, convert)
  {
    var recordingLength := TotalLength(leftchannel);
    var samples := FlattenArray(leftchannel, recordingLength);
    assert samples[..] == Concat(leftchannel);
    wav := EncodeWav(samples, sampleRate, convert);
  }
}
