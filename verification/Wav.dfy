/**
 * The 16-bit PCM WAV encoder: its byte layout, a reader that gets the audio back, and how far a
 * decoded sample can be from the one encoded. Samples are real numbers.
 */
module Wav {
  import opened Wrappers
  import opened Common

  type Samples = seq<seq<real>>

  datatype WavError = NoChannelData

  // ---- quantisation ----

  function Clamp(x: real): real {
    if x < -1.0 then -1.0 else if x > 1.0 then 1.0 else x
  }

  /** Conversion to an integer drops the fraction. */
  function Trunc(x: real): int {
    if x < 0.0 then -((-x).Floor) else x.Floor
  }

  function Scale(s: real): real {
    if s < 0.0 then s * 32768.0 else s * 32767.0
  }

  function Quantize(x: real): int {
    Trunc(Scale(Clamp(x)))
  }

  function Dequantize(q: int): real {
    if q < 0 then q as real / 32768.0 else q as real / 32767.0
  }

  /**
   * A sample fits in 16 bits, and decodes to less than one step from the input clamped to -1 and 1, on
   * the side of zero: that determines it.
   */
  lemma QuantizeIsClose(x: real)
    ensures -32768 <= Quantize(x) <= 32767
    ensures 0.0 <= x <= 1.0 ==> Dequantize(Quantize(x)) <= x < Dequantize(Quantize(x)) + 1.0 / 32767.0
    ensures -1.0 <= x < 0.0 ==> Dequantize(Quantize(x)) - 1.0 / 32768.0 < x <= Dequantize(Quantize(x))
    ensures x > 1.0 ==> Quantize(x) == 32767
    ensures x < -1.0 ==> Quantize(x) == -32768
  {
  }

  lemma QuantizeIsMonotone(x: real, y: real)
    requires x <= y
    ensures Quantize(x) <= Quantize(y)
  {
  }

  /** Encoding loses nothing once a sample is a 16-bit one. */
  lemma QuantizeInverts(q: int)
    requires -32768 <= q <= 32767
    ensures Quantize(Dequantize(q)) == q
  {
  }

  // ---- little-endian fields ----

  const TWO16 := 0x1_0000
  const TWO32 := 0x1_0000_0000

  function ByteOf(v: int, k: nat): Byte
    requires k < 4
  {
    (if k == 0 then v % 256 else if k == 1 then v / 256 % 256
     else if k == 2 then v / 0x1_0000 % 256 else v / 0x100_0000 % 256) as Byte
  }

  /** The bytes a DataView setter writes: the value modulo the field's width. */
  function Le16(v: int): (r: Bytes)
    ensures |r| == 2
  {
    [ByteOf(v, 0), ByteOf(v, 1)]
  }

  function Le32(v: int): (r: Bytes)
    ensures |r| == 4
  {
    [ByteOf(v, 0), ByteOf(v, 1), ByteOf(v, 2), ByteOf(v, 3)]
  }

  function U16(b: Bytes, i: nat): int
    requires i + 2 <= |b|
  {
    b[i] as int + 256 * b[i + 1] as int
  }

  function U32(b: Bytes, i: nat): int
    requires i + 4 <= |b|
  {
    U16(b, i) + TWO16 * U16(b, i + 2)
  }

  function I16(b: Bytes, i: nat): int
    requires i + 2 <= |b|
  {
    if U16(b, i) < 0x8000 then U16(b, i) else U16(b, i) - TWO16
  }

  lemma Le16Reads(v: int)
    ensures U16(Le16(v), 0) == v % TWO16
    ensures -32768 <= v <= 32767 ==> I16(Le16(v), 0) == v
  {
  }

  lemma Le32Reads(v: int)
    ensures U32(Le32(v), 0) == v % TWO32
  {
    hide Le32, ByteOf;
    Low16(v);
    High16(v);
    Halves(v);
  }

  lemma Low16(v: int)
    ensures U16(Le32(v), 0) == v % TWO16
  {
    Pairs(v);
  }

  lemma High16(v: int)
    ensures U16(Le32(v), 2) == v / TWO16 % TWO16
  {
    Pairs(v / TWO16);
    assert v / 0x100_0000 == v / TWO16 / 256;
  }

  lemma Pairs(v: int)
    ensures v % 256 + 256 * (v / 256 % 256) == v % TWO16
  {
  }

  lemma Halves(v: int)
    ensures v % TWO16 + TWO16 * (v / TWO16 % TWO16) == v % TWO32
  {
  }

  // ---- the file, position by position ----

  function Ascii(s: string): Bytes
    requires forall i | 0 <= i < |s| :: s[i] as int < 256
  {
    seq(|s|, i requires 0 <= i < |s| => s[i] as int as Byte)
  }

  function Header(numChannels: nat, sampleRate: int, dataSize: nat): (r: Bytes)
    ensures |r| == 44
  {
    Ascii("RIFF") + Le32(36 + dataSize) + Ascii("WAVE")
    + Ascii("fmt ") + Le32(16) + Le16(1) + Le16(numChannels) + Le32(sampleRate)
    + Le32(sampleRate * (numChannels * 2)) + Le16(numChannels * 2) + Le16(16)
    + Ascii("data") + Le32(dataSize)
  }

  /** The sample of a frame; a channel shorter than the first is silent at its end. */
  function SampleAt(channels: Samples, frame: nat, ch: nat): real
    requires ch < |channels|
  {
    if frame < |channels[ch]| then channels[ch][frame] else 0.0
  }

  /** Frame by frame, and within a frame channel by channel. */
  function Interleaved(channels: Samples, frames: nat): (r: Bytes)
    requires channels != []
    ensures |r| == frames * (|channels| * 2)
  {
    var n := |channels|;
    seq(frames * (n * 2), i requires 0 <= i < frames * (n * 2) =>
      Le16(Quantize(SampleAt(channels, i / 2 / n, i / 2 % n)))[i % 2])
  }

  function Encoded(sampleRate: int, channels: Samples): Bytes
    requires channels != []
  {
    var frames := |channels[0]|;
    Header(|channels|, sampleRate, frames * (|channels| * 2)) + Interleaved(channels, frames)
  }

  /** The byte position of a sample in the data. */
  function Position(n: nat, frame: nat, ch: nat): nat {
    2 * (frame * n + ch)
  }

  lemma PositionIn(n: nat, frames: nat, frame: nat, ch: nat)
    requires frame < frames && ch < n
    ensures Position(n, frame, ch) + 2 <= frames * (n * 2)
    ensures Position(n, frame, ch) / 2 / n == frame && Position(n, frame, ch) / 2 % n == ch
  {
    hide Position;
    MulLess(frame, frames, n);
    DivMod(n, frame, ch);
    PositionIs(n, frames, frame, ch);
  }

  lemma PositionIs(n: nat, frames: nat, frame: nat, ch: nat)
    ensures Position(n, frame, ch) == 2 * (frame * n + ch) && Position(n, frame, ch) / 2 == frame * n + ch
    ensures frames * (n * 2) == 2 * (frames * n)
  {
  }

  lemma {:induction false} MulLess(a: nat, b: nat, n: nat)
    ensures a < b ==> a * n + n <= b * n
  {
    if a < b {
      assert b * n == (b - 1) * n + n;
      MulLess(a, b - 1, n);
    }
  }

  lemma DivMod(n: nat, q: nat, r: nat)
    requires r < n
    ensures (q * n + r) / n == q && (q * n + r) % n == r
  {
    var x := q * n + r;
    MulLess(x / n, q, n);
    MulLess(q, x / n, n);
  }

  /** Sample (frame, ch) of N channels sits at byte 44 + 2 * (frame * N + ch) of the file. */
  lemma SampleSits(sampleRate: int, channels: Samples, frame: nat, ch: nat)
    requires channels != [] && frame < |channels[0]| && ch < |channels|
    ensures var b, i := Encoded(sampleRate, channels), 44 + 2 * (frame * |channels| + ch);
      i + 2 <= |b| && I16(b, i) == Quantize(if frame < |channels[ch]| then channels[ch][frame] else 0.0)
  {
    hide Header, Quantize;
    var n, q := |channels|, Quantize(SampleAt(channels, frame, ch));
    var p := Position(n, frame, ch);
    PositionIn(n, |channels[0]|, frame, ch);
    QuantizeIsClose(SampleAt(channels, frame, ch));
    Le16Reads(q);
    var data := Interleaved(channels, |channels[0]|);
    assert p % 2 == 0 && (p + 1) / 2 == p / 2;
    assert data[p] == Le16(q)[0] && data[p + 1] == Le16(q)[1];
  }

  /** Writing the sample at its position completes the data up to the next one. */
  lemma NextSample(channels: Samples, frames: nat, frame: nat, ch: nat)
    requires channels != [] && frame < frames && ch < |channels|
    ensures var p, data := Position(|channels|, frame, ch), Interleaved(channels, frames);
      p + 2 <= |data| && data[..p] + Le16(Quantize(SampleAt(channels, frame, ch))) == data[..p + 2]
  {
    hide Quantize, Le16;
    var p, data := Position(|channels|, frame, ch), Interleaved(channels, frames);
    PositionIn(|channels|, frames, frame, ch);
    assert p % 2 == 0 && (p + 1) / 2 == p / 2 && (p + 1) % 2 == 1;
    var q := Quantize(SampleAt(channels, frame, ch));
    assert data[p] == Le16(q)[0] && data[p + 1] == Le16(q)[1];
    assert data[p..p + 2] == Le16(q);
    assert data[..p] + data[p..p + 2] == data[..p + 2];
  }

  lemma NextPosition(n: nat, frame: nat, ch: nat)
    ensures Position(n, frame, ch) + 2 == Position(n, frame, ch + 1)
    ensures Position(n, frame, n) == Position(n, frame + 1, 0) == 2 * ((frame + 1) * n)
    ensures Position(n, 0, 0) == 0
  {
  }

  // ---- the encoder ----

  /** A DataView setter: the field follows what has been written so far. */
  method Put(view: array<Byte>, offset: nat, field: Bytes)
    requires offset + |field| <= view.Length
    modifies view
    ensures view[..offset + |field|] == old(view[..offset]) + field
  {
    for i := 0 to |field|
      invariant view[..offset + i] == old(view[..offset]) + field[..i]
    {
      view[offset + i] := field[i];
      assert field[..i + 1] == field[..i] + [field[i]];
      assert view[..offset + i + 1] == view[..offset + i] + [field[i]];
    }
    assert field[..|field|] == field;
  }

  method WriteString(view: array<Byte>, offset: nat, s: string)
    requires offset + |s| <= view.Length && forall i | 0 <= i < |s| :: s[i] as int < 256
    modifies view
    ensures view[..offset + |s|] == old(view[..offset]) + Ascii(s)
  {
    for i := 0 to |s|
      invariant view[..offset + i] == old(view[..offset]) + Ascii(s)[..i]
    {
      Put(view, offset + i, [s[i] as int as Byte]);
      assert Ascii(s)[..i + 1] == Ascii(s)[..i] + [s[i] as int as Byte];
    }
    assert Ascii(s)[..|s|] == Ascii(s);
  }

  method FloatTo16BitPCM(view: array<Byte>, offset: nat, input: seq<real>)
    requires offset + |input| * 2 <= view.Length
    modifies view
    ensures view[..offset + |input| * 2] == old(view[..offset]) + Interleaved([input], |input|)
  {
    hide Interleaved, Position, Quantize, Le16;
    var o := offset;
    var data := Interleaved([input], |input|);
    NextPosition(1, 0, 0);
    for i := 0 to |input|
      invariant o == offset + Position(1, i, 0) && Position(1, i, 0) == 2 * i
      invariant view[..o] == old(view[..offset]) + data[..Position(1, i, 0)]
    {
      NextSample([input], |input|, i, 0);
      NextPosition(1, i, 0);
      var s := if input[i] > 1.0 then 1.0 else input[i];
      s := if s < -1.0 then -1.0 else s;
      SampleIs(input[i], s);
      Put(view, o, Le16(Trunc(if s < 0.0 then s * 32768.0 else s * 32767.0)));
      o := o + 2;
    }
    assert data[..|data|] == data;
  }

  lemma SampleIs(x: real, s: real)
    requires s == var t := if x > 1.0 then 1.0 else x; if t < -1.0 then -1.0 else t
    ensures Trunc(if s < 0.0 then s * 32768.0 else s * 32767.0) == Quantize(x)
  {
  }

  method WriteHeader(view: array<Byte>, numChannels: nat, sampleRate: int, dataSize: nat)
    requires view.Length >= 44
    modifies view
    ensures view[..44] == Header(numChannels, sampleRate, dataSize)
  {
    hide Le16, Le32, Ascii;
    WriteString(view, 0, "RIFF");
    Put(view, 4, Le32(36 + dataSize));
    WriteString(view, 8, "WAVE");
    WriteString(view, 12, "fmt ");
    Put(view, 16, Le32(16));
    Put(view, 20, Le16(1));
    assert view[..22] == Ascii("RIFF") + Le32(36 + dataSize) + Ascii("WAVE") + Ascii("fmt ") + Le32(16) + Le16(1);
    Put(view, 22, Le16(numChannels));
    Put(view, 24, Le32(sampleRate));
    Put(view, 28, Le32(sampleRate * (numChannels * 2)));
    Put(view, 32, Le16(numChannels * 2));
    Put(view, 34, Le16(16));
    WriteString(view, 36, "data");
    Put(view, 40, Le32(dataSize));
  }

  /** Every byte of the buffer is written, none outside it, and the mono path agrees with the other. */
  method EncodeWav(sampleRate: int, channelData: Samples) returns (r: Result<array<Byte>, WavError>)
    ensures r.Err? <==> channelData == []
    ensures r.Ok? ==> fresh(r.value) && r.value[..] == Encoded(sampleRate, channelData)
  {
    hide Interleaved, Header, Quantize, Position;
    var n := |channelData|;
    if n == 0 {
      return Err(NoChannelData);
    }
    var frames := |channelData[0]|;
    var view := new Byte[44 + frames * (n * 2)];
    WriteHeader(view, n, sampleRate, frames * (n * 2));
    var offset := 44;
    if n == 1 {
      assert channelData == [channelData[0]];
      FloatTo16BitPCM(view, offset, channelData[0]);
    } else {
      WriteInterleaved(view, channelData, frames);
    }
    assert view[..view.Length] == view[..];
    r := Ok(view);
  }

  method WriteInterleaved(view: array<Byte>, channelData: Samples, frames: nat)
    requires channelData != [] && view.Length == 44 + frames * (|channelData| * 2)
    modifies view
    ensures view[..] == old(view[..44]) + Interleaved(channelData, frames)
  {
    hide Interleaved, Position, Quantize, Le16;
    var n := |channelData|;
    var data := Interleaved(channelData, frames);
    ghost var head := view[..44];
    var offset := 44;
    NextPosition(n, 0, 0);
    for frame := 0 to frames
      invariant offset == 44 + Position(n, frame, 0) <= view.Length
      invariant view[..offset] == head + data[..offset - 44]
    {
      FrameFits(n, frames, frame);
      for ch := 0 to n
        invariant offset == 44 + Position(n, frame, ch) <= view.Length
        invariant view[..offset] == head + data[..offset - 44]
      {
        NextSample(channelData, frames, frame, ch);
        NextPosition(n, frame, ch);
        var x := if frame < |channelData[ch]| then channelData[ch][frame] else 0.0;
        var s := if x > 1.0 then 1.0 else x;
        s := if s < -1.0 then -1.0 else s;
        SampleIs(x, s);
        Put(view, offset, Le16(Trunc(if s < 0.0 then s * 32768.0 else s * 32767.0)));
        offset := offset + 2;
      }
      NextPosition(n, frame, 0);
    }
    LastPosition(n, frames);
    assert data[..|data|] == data && view[..view.Length] == view[..];
  }

  lemma FrameFits(n: nat, frames: nat, frame: nat)
    requires frame < frames
    ensures Position(n, frame + 1, 0) <= frames * (n * 2)
  {
    MulLess(frame, frames, n);
    PositionIs(n, frames, frame + 1, 0);
  }

  lemma LastPosition(n: nat, frames: nat)
    ensures Position(n, frames, 0) == frames * (n * 2)
  {
  }

  // ---- the reader ----

  /** Decoded audio: for each frame one 16-bit sample a channel. */
  datatype Audio = Audio(numChannels: nat, sampleRate: int, frames: seq<seq<int>>)

  predicate Magic(b: Bytes) {
    |b| >= 44 && b[..4] == Ascii("RIFF") && b[8..12] == Ascii("WAVE") && b[12..16] == Ascii("fmt ") &&
      b[36..40] == Ascii("data")
  }

  /** 16-bit PCM whose sizes agree with the length of the file and with one another. */
  predicate Readable(b: Bytes) {
    && Magic(b)
    && U32(b, 4) == |b| - 8 && U32(b, 40) == |b| - 44
    && U32(b, 16) == 16 && U16(b, 20) == 1 && U16(b, 34) == 16
    && U16(b, 22) > 0 && U16(b, 32) == 2 * U16(b, 22) && (|b| - 44) % (2 * U16(b, 22)) == 0
  }

  function FrameCount(size: nat, block: nat): nat
    requires block > 0
  {
    size / block
  }

  function SampleIn(b: Bytes, n: nat, f: nat, c: nat): int {
    var i := 44 + Position(n, f, c);
    if i + 2 <= |b| then I16(b, i) else 0
  }

  function FramesOf(b: Bytes, n: nat): seq<seq<int>>
    requires n > 0 && |b| >= 44
  {
    seq(FrameCount(|b| - 44, 2 * n), f requires f >= 0 => seq(n, c requires c >= 0 => SampleIn(b, n, f, c)))
  }

  function Read(b: Bytes): Option<Audio> {
    if Readable(b) then Some(Audio(U16(b, 22), U32(b, 24), FramesOf(b, U16(b, 22)))) else None
  }

  lemma Reads32(pre: Bytes, v: int, post: Bytes)
    ensures U32(pre + Le32(v) + post, |pre|) == v % TWO32
  {
    hide ByteOf;
    Le32Reads(v);
    var b := pre + Le32(v) + post;
    assert forall k | 0 <= k < 4 :: b[|pre| + k] == Le32(v)[k];
  }

  lemma Reads16(pre: Bytes, v: int, post: Bytes)
    ensures U16(pre + Le16(v) + post, |pre|) == v % TWO16
  {
    hide ByteOf;
    Le16Reads(v);
    var b := pre + Le16(v) + post;
    assert forall k | 0 <= k < 2 :: b[|pre| + k] == Le16(v)[k];
  }

  lemma FieldReads32(h: Bytes, i: nat, v: int)
    requires i + 4 <= |h| && h[i..i + 4] == Le32(v)
    ensures U32(h, i) == v % TWO32
  {
    hide Le32, U32;
    assert h == h[..i] + Le32(v) + h[i + 4..];
    Reads32(h[..i], v, h[i + 4..]);
  }

  lemma FieldReads16(h: Bytes, i: nat, v: int)
    requires i + 2 <= |h| && h[i..i + 2] == Le16(v)
    ensures U16(h, i) == v % TWO16
  {
    hide Le16, U16;
    assert h == h[..i] + Le16(v) + h[i + 2..];
    Reads16(h[..i], v, h[i + 2..]);
  }

  /** Where the fields lie. */
  lemma HeaderFields(n: nat, rate: int, size: nat)
    ensures var h := Header(n, rate, size);
      && h[4..8] == Le32(36 + size) && h[16..20] == Le32(16) && h[20..22] == Le16(1) && h[22..24] == Le16(n)
      && h[24..28] == Le32(rate) && h[28..32] == Le32(rate * (n * 2)) && h[32..34] == Le16(n * 2)
      && h[34..36] == Le16(16) && h[40..44] == Le32(size)
  {
    AsciiLengths();
    Slices(Ascii("RIFF"), Le32(36 + size), Ascii("WAVE"), Ascii("fmt "), Le32(16), Le16(1), Le16(n), Le32(rate),
      Le32(rate * (n * 2)), Le16(n * 2), Le16(16), Ascii("data"), Le32(size));
  }

  lemma Slices(riff: Bytes, a: Bytes, wave: Bytes, fmt: Bytes, b: Bytes, c: Bytes, d: Bytes, e: Bytes, f: Bytes,
      g: Bytes,
               i: Bytes, data: Bytes, j: Bytes)
    requires |riff| == |a| == |wave| == |fmt| == |b| == |e| == |f| == |data| == |j| == 4
    requires |c| == |d| == |g| == |i| == 2
    ensures var h := riff + a + wave + fmt + b + c + d + e + f + g + i + data + j;
      && |h| == 44 && h[4..8] == a && h[16..20] == b && h[20..22] == c && h[22..24] == d && h[24..28] == e
      && h[28..32] == f && h[32..34] == g && h[34..36] == i && h[40..44] == j
  {
  }

  /** The numeric fields of the header, each the value written modulo the field's width. */
  lemma HeaderReads(n: nat, rate: int, size: nat)
    ensures var h := Header(n, rate, size);
      && U32(h, 4) == (36 + size) % TWO32 && U32(h, 40) == size % TWO32
      && U32(h, 16) == 16 && U16(h, 20) == 1 && U16(h, 34) == 16
      && U16(h, 22) == n % TWO16 && U16(h, 32) == (n * 2) % TWO16
      && U32(h, 24) == rate % TWO32 && U32(h, 28) == (rate * (n * 2)) % TWO32
  {
    hide Header, Le16, Le32, U16, U32;
    var h := Header(n, rate, size);
    HeaderFields(n, rate, size);
    FieldReads32(h, 4, 36 + size);
    FieldReads32(h, 16, 16);
    FieldReads16(h, 20, 1);
    FieldReads16(h, 22, n);
    FieldReads32(h, 24, rate);
    FieldReads32(h, 28, rate * (n * 2));
    FieldReads16(h, 32, n * 2);
    FieldReads16(h, 34, 16);
    FieldReads32(h, 40, size);
  }

  lemma AsciiLengths()
    ensures |Ascii("RIFF")| == 4 && |Ascii("WAVE")| == 4 && |Ascii("fmt ")| == 4 && |Ascii("data")| == 4
  {
  }

  lemma HeaderMagic(n: nat, rate: int, size: nat)
    ensures Magic(Header(n, rate, size))
  {
    hide Le16, Le32;
  }

  lemma HeaderInFront(h: Bytes, data: Bytes)
    requires |h| == 44
    ensures Magic(h + data) <==> Magic(h)
    ensures U32(h + data, 4) == U32(h, 4) && U32(h + data, 40) == U32(h, 40) && U32(h + data, 16) == U32(h, 16)
    ensures U32(h + data, 24) == U32(h, 24) && U16(h + data, 20) == U16(h, 20) && U16(h + data, 34) == U16(h, 34)
    ensures U16(h + data, 22) == U16(h, 22) && U16(h + data, 32) == U16(h, 32)
  {
    hide Ascii;
    var b := h + data;
    assert b[..4] == h[..4] && b[8..12] == h[8..12] && b[12..16] == h[12..16] && b[36..40] == h[36..40];
  }

  /** The sizes fit their fields. */
  predicate Fits(n: nat, frames: nat) {
    n * 2 < TWO16 && 36 + frames * (n * 2) < TWO32
  }

  /** A file is readable as what was encoded exactly when its sizes fit the header's fields. */
  lemma ReadableExactly(rate: int, channels: Samples)
    requires channels != []
    ensures var b := Encoded(rate, channels); var n, frames := |channels|, |channels[0]|;
      && (Readable(b) && U16(b, 22) == n <==> Fits(n, frames))
      && (|b| >= 44 && U32(b, 24) == rate % TWO32)
  {
    hide Header, Interleaved, Magic, U16, U32;
    var n, frames := |channels|, |channels[0]|;
    var size := frames * (n * 2);
    HeaderReads(n, rate, size);
    HeaderMagic(n, rate, size);
    HeaderInFront(Header(n, rate, size), Interleaved(channels, frames));
    WholeFrames(frames, n * 2);
  }

  lemma WholeFrames(frames: nat, block: nat)
    requires block > 0
    ensures frames * block % block == 0 && frames * block / block == frames
  {
    DivMod(block, frames, 0);
  }

  /** A frame that was read holds each channel's own sample, or silence past the channel's end. */
  lemma FrameRead(rate: int, channels: Samples, f: nat, c: nat)
    requires channels != [] && f < |channels[0]| && c < |channels|
    ensures var b := Encoded(rate, channels);
      && |b| >= 44 && |FramesOf(b, |channels|)| == |channels[0]| && |FramesOf(b, |channels|)[f]| == |channels|
      && FramesOf(b, |channels|)[f][c] == Quantize(if f < |channels[c]| then channels[c][f] else 0.0)
  {
    hide Header, Interleaved, Quantize, I16;
    FramesCounted(rate, channels);
    SampleSits(rate, channels, f, c);
  }

  lemma FramesCounted(rate: int, channels: Samples)
    requires channels != []
    ensures var b := Encoded(rate, channels); |b| >= 44 && |FramesOf(b, |channels|)| == |channels[0]|
  {
    hide Header, Interleaved;
    WholeFrames(|channels[0]|, |channels| * 2);
  }

  /**
   * Reading the file back gives the number of channels, the rate, and in every frame each channel's own
   * sample quantised, a channel being silent past its end, exactly when the sizes fit their 16- and
   * 32-bit fields and the rate is one of 32 bits.
   */
  lemma WavRoundTrip(rate: int, channels: Samples)
    requires channels != []
    ensures var r := Read(Encoded(rate, channels));
      (&& r.Some? && r.value.numChannels == |channels| && r.value.sampleRate == rate
       && |r.value.frames| == |channels[0]|
       && (forall f | 0 <= f < |channels[0]| :: |r.value.frames[f]| == |channels|)
       && (forall f, c | 0 <= f < |channels[0]| && 0 <= c < |channels| ::
             r.value.frames[f][c] == Quantize(if f < |channels[c]| then channels[c][f] else 0.0)))
      <==> Fits(|channels|, |channels[0]|) && 0 <= rate < TWO32
  {
    hide Encoded, Readable, FramesOf, U16, U32, Quantize;
    ReadableExactly(rate, channels);
    FramesCounted(rate, channels);
    forall f, c | 0 <= f < |channels[0]| && 0 <= c < |channels|
      ensures |FramesOf(Encoded(rate, channels), |channels|)[f]| == |channels|
      ensures FramesOf(Encoded(rate, channels), |channels|)[f][c] ==
        Quantize(if f < |channels[c]| then channels[c][f] else 0.0)
    {
      FrameRead(rate, channels, f, c);
    }
    forall f | 0 <= f < |channels[0]| ensures |FramesOf(Encoded(rate, channels), |channels|)[f]| == |channels| {
      FrameRead(rate, channels, f, 0);
    }
  }
}
