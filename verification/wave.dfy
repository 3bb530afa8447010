/**
  `bufferToWave` and `writeString` (script.js:561-610): a canonical 44-byte
  RIFF/WAVE PCM header followed by frame-interleaved 16-bit samples, every
  multi-byte field little-endian, written through a `DataView` over a freshly
  allocated `ArrayBuffer`. `DataView` setters convert their argument with
  ToUint16/ToUint32/ToInt16, i.e. modulo 2^16 or 2^32; that wrap-around is
  written out below.
*/
module Wave {
  import opened Bytes
  import opened AudioMerge

  const HeaderSize: nat := 44
  const BitDepth: nat := 16
  const FormatPcm: nat := 1

  /** Little-endian bytes of ToUint16(v). */
  function Uint16LE(v: int): (b: seq<byte>)
    ensures |b| == 2
  {
    var u := v % 0x1_0000;
    [u % 0x100, u / 0x100]
  }

  /** Little-endian bytes of ToUint32(v). */
  function Uint32LE(v: int): (b: seq<byte>)
    ensures |b| == 4
  {
    var u := v % 0x1_0000_0000;
    var q1 := u / 0x100;
    var q2 := q1 / 0x100;
    [u % 0x100, q1 % 0x100, q2 % 0x100, q2 / 0x100]
  }

  /** The unsigned 16-bit little-endian value at `at`. */
  function ReadUint16LE(w: seq<byte>, at: nat): nat
    requires at + 2 <= |w|
  {
    w[at] as int + 0x100 * (w[at + 1] as int)
  }

  /** The unsigned 32-bit little-endian value at `at`. */
  function ReadUint32LE(w: seq<byte>, at: nat): nat
    requires at + 4 <= |w|
  {
    w[at] as int + 0x100 * (w[at + 1] as int + 0x100 * (w[at + 2] as int + 0x100 * (w[at + 3] as int)))
  }

  /** The signed (two's complement) 16-bit little-endian value at `at`. */
  function ReadInt16LE(w: seq<byte>, at: nat): int
    requires at + 2 <= |w|
  {
    var u := ReadUint16LE(w, at);
    if u < 0x8000 then u else u - 0x1_0000
  }

  /** ToInt16: the value modulo 2^16, read as two's complement. */
  function Int16Wrap(v: int): (r: int)
    ensures -0x8000 <= r < 0x8000
    ensures -0x8000 <= v < 0x8000 ==> r == v
  {
    var u := v % 0x1_0000;
    if u < 0x8000 then u else u - 0x1_0000
  }

  /** Reading back what `setUint16` wrote gives ToUint16 of the value. */
  lemma Uint16RoundTrip(w: seq<byte>, at: nat, v: int)
    requires at + 2 <= |w| && w[at] == Uint16LE(v)[0] && w[at + 1] == Uint16LE(v)[1]
    ensures ReadUint16LE(w, at) == v % 0x1_0000
    ensures ReadInt16LE(w, at) == Int16Wrap(v)
  {
  }

  /** Reading back what `setUint32` wrote gives ToUint32 of the value. */
  lemma Uint32RoundTrip(w: seq<byte>, at: nat, v: int)
    requires at + 4 <= |w|
    requires forall j :: 0 <= j < 4 ==> w[at + j] == Uint32LE(v)[j]
    ensures ReadUint32LE(w, at) == v % 0x1_0000_0000
  {
    var b := Uint32LE(v);
    assert w[at] == b[0] && w[at + 1] == b[1] && w[at + 2] == b[2] && w[at + 3] == b[3];
    var u := v % 0x1_0000_0000;
    var q1 := u / 0x100;
    var q2 := q1 / 0x100;
    assert u == u % 0x100 + 0x100 * q1;
    assert q1 == q1 % 0x100 + 0x100 * q2;
    assert q2 == q2 % 0x100 + 0x100 * (q2 / 0x100);
  }

  /** `string.charCodeAt(i)` stored with `setUint8`, i.e. modulo 256. */
  function Ascii(s: string): (b: seq<byte>)
    ensures |b| == |s|
  {
    seq(|s|, i requires 0 <= i < |s| => (s[i] as int) % 0x100)
  }

  /** `Math.max(-1, Math.min(1, x))`. */
  function Clamp(x: real): (y: real)
    ensures -1.0 <= y <= 1.0
    ensures -1.0 <= x <= 1.0 ==> y == x
  {
    if x > 1.0 then 1.0 else if x < -1.0 then -1.0 else x
  }

  /** ToInt16's truncation toward zero (the value is already in 16-bit range here). */
  function Truncate(x: real): (n: int)
    ensures x >= 0.0 ==> n as real <= x < n as real + 1.0
    ensures x < 0.0 ==> n as real - 1.0 < x <= n as real
  {
    if x >= 0.0 then x.Floor else -((-x).Floor)
  }

  /**
    The 16-bit value written for one sample: clamp to [-1, 1], scale negative
    samples by 0x8000 and the others by 0x7fff, truncate toward zero. A
    float32 sample times a 16-bit constant is exact in double precision, so
    real arithmetic gives the same product as the source.
  */
  function Quantize(x: real): (q: int)
    ensures -0x8000 <= q <= 0x7fff
    ensures x >= 1.0 ==> q == 0x7fff
    ensures x <= -1.0 ==> q == -0x8000
    ensures (x < 0.0 ==> q <= 0) && (x >= 0.0 ==> q >= 0)
  {
    var s := Clamp(x);
    Truncate(if s < 0.0 then s * 32768.0 else s * 32767.0)
  }

  /** Truncation toward zero never reverses the order of two values. */
  lemma TruncateMonotone(x: real, y: real)
    requires x <= y
    ensures Truncate(x) <= Truncate(y)
  {
    if x >= 0.0 {
      assert (Truncate(x) as real) <= x <= y < Truncate(y) as real + 1.0;
    } else if y < 0.0 {
      assert Truncate(x) as real - 1.0 < x <= y <= Truncate(y) as real;
    }
  }

  /** A louder sample never gets a smaller 16-bit value: quantization preserves order. */
  lemma QuantizeMonotone(x: real, y: real)
    requires x <= y
    ensures Quantize(x) <= Quantize(y)
  {
    var sx, sy := Clamp(x), Clamp(y);
    var px := if sx < 0.0 then sx * 32768.0 else sx * 32767.0;
    var py := if sy < 0.0 then sy * 32768.0 else sy * 32767.0;
    assert px <= py;
    TruncateMonotone(px, py);
  }

  /** `view.setUint16(offset, v, true)`. */
  method SetUint16(view: array<byte>, offset: nat, v: int)
    requires offset + 2 <= view.Length
    modifies view
    ensures ReadUint16LE(view[..], offset) == v % 0x1_0000
    ensures ReadInt16LE(view[..], offset) == Int16Wrap(v)
    ensures forall j :: 0 <= j < view.Length && (j < offset || offset + 2 <= j) ==> view[j] == old(view[j])
  {
    var b := Uint16LE(v);
    view[offset] := b[0];
    view[offset + 1] := b[1];
    Uint16RoundTrip(view[..], offset, v);
  }

  /** `view.setUint32(offset, v, true)`. */
  method SetUint32(view: array<byte>, offset: nat, v: int)
    requires offset + 4 <= view.Length
    modifies view
    ensures ReadUint32LE(view[..], offset) == v % 0x1_0000_0000
    ensures forall j :: 0 <= j < view.Length && (j < offset || offset + 4 <= j) ==> view[j] == old(view[j])
  {
    var b := Uint32LE(v);
    view[offset] := b[0];
    view[offset + 1] := b[1];
    view[offset + 2] := b[2];
    view[offset + 3] := b[3];
    Uint32RoundTrip(view[..], offset, v);
  }

  /** `s` is stored, one `charCodeAt` per byte, at `at`. */
  ghost predicate BytesAt(w: seq<byte>, at: nat, s: string)
  {
    at + |s| <= |w| && forall j :: 0 <= j < |s| ==> w[at + j] == Ascii(s)[j]
  }

  /** `writeString(view, offset, s)` (script.js:606-610): one `setUint8` per character. */
  method WriteString(view: array<byte>, offset: nat, s: string)
    requires offset + |s| <= view.Length
    modifies view
    ensures BytesAt(view[..], offset, s)
    ensures forall j :: 0 <= j < view.Length && (j < offset || offset + |s| <= j) ==> view[j] == old(view[j])
  {
    for i := 0 to |s|
      invariant forall j :: 0 <= j < i ==> view[offset + j] == Ascii(s)[j]
      invariant forall j :: 0 <= j < view.Length && (j < offset || offset + i <= j) ==> view[j] == old(view[j])
    {
      view[offset + i] := (s[i] as int) % 0x100;
    }
  }

  /** The RIFF chunk descriptor (bytes 0-11): "RIFF", the chunk size, "WAVE". */
  ghost predicate RiffChunk(w: seq<byte>, dataLength: nat)
  {
    && |w| >= HeaderSize
    && BytesAt(w, 0, "RIFF")
    && ReadUint32LE(w, 4) == (36 + dataLength) % 0x1_0000_0000
    && BytesAt(w, 8, "WAVE")
  }

  /** The "fmt " sub-chunk of 16-bit PCM (bytes 12-35). */
  ghost predicate FmtChunk(w: seq<byte>, numChannels: nat, sampleRate: nat)
  {
    && |w| >= HeaderSize
    && BytesAt(w, 12, "fmt ")
    && ReadUint32LE(w, 16) == 16
    && ReadUint16LE(w, 20) == FormatPcm
    && ReadUint16LE(w, 22) == numChannels % 0x1_0000
    && ReadUint32LE(w, 24) == sampleRate % 0x1_0000_0000
    && ReadUint32LE(w, 28) == sampleRate * numChannels * BitDepth / 8 % 0x1_0000_0000
    && ReadUint16LE(w, 32) == numChannels * BitDepth / 8 % 0x1_0000
    && ReadUint16LE(w, 34) == BitDepth
  }

  /** The "data" sub-chunk header (bytes 36-43). */
  ghost predicate DataChunkHeader(w: seq<byte>, dataLength: nat)
  {
    && |w| >= HeaderSize
    && BytesAt(w, 36, "data")
    && ReadUint32LE(w, 40) == dataLength % 0x1_0000_0000
  }

  /** The canonical 44-byte PCM header, every field at its absolute offset. */
  ghost predicate HeaderLayout(w: seq<byte>, numChannels: nat, sampleRate: nat, dataLength: nat)
  {
    RiffChunk(w, dataLength) && FmtChunk(w, numChannels, sampleRate) && DataChunkHeader(w, dataLength)
  }

  /** The header depends on the first 44 bytes only. */
  lemma HeaderLayoutPrefix(w: seq<byte>, w': seq<byte>, numChannels: nat, sampleRate: nat, dataLength: nat)
    requires HeaderLayout(w, numChannels, sampleRate, dataLength)
    requires |w'| >= HeaderSize && forall j :: 0 <= j < HeaderSize ==> w'[j] == w[j]
    ensures HeaderLayout(w', numChannels, sampleRate, dataLength)
  {
  }

  /** script.js:571-573. */
  method WriteRiffChunk(view: array<byte>, dataLength: nat)
    requires view.Length >= HeaderSize
    modifies view
    ensures RiffChunk(view[..], dataLength)
    ensures forall j :: 12 <= j < view.Length ==> view[j] == old(view[j])
  {
    WriteString(view, 0, "RIFF");
    SetUint32(view, 4, 36 + dataLength);
    WriteString(view, 8, "WAVE");
  }

  /** script.js:574-581. */
  method WriteFmtChunk(view: array<byte>, numChannels: nat, sampleRate: nat)
    requires view.Length >= HeaderSize
    modifies view
    ensures FmtChunk(view[..], numChannels, sampleRate)
    ensures forall j :: 0 <= j < view.Length && (j < 12 || 36 <= j) ==> view[j] == old(view[j])
  {
    WriteString(view, 12, "fmt ");
    SetUint32(view, 16, 16);
    SetUint16(view, 20, FormatPcm);
    SetUint16(view, 22, numChannels);
    SetUint32(view, 24, sampleRate);
    SetUint32(view, 28, sampleRate * numChannels * BitDepth / 8);
    SetUint16(view, 32, numChannels * BitDepth / 8);
    SetUint16(view, 34, BitDepth);
  }

  /** script.js:582-583. */
  method WriteDataChunkHeader(view: array<byte>, dataLength: nat)
    requires view.Length >= HeaderSize
    modifies view
    ensures DataChunkHeader(view[..], dataLength)
    ensures forall j :: 0 <= j < view.Length && (j < 36 || 44 <= j) ==> view[j] == old(view[j])
  {
    WriteString(view, 36, "data");
    SetUint32(view, 40, dataLength);
  }

  /** The 44 header bytes written by `bufferToWave` (script.js:571-583). */
  method WriteHeader(view: array<byte>, numChannels: nat, sampleRate: nat, dataLength: nat)
    requires view.Length >= HeaderSize
    modifies view
    ensures HeaderLayout(view[..], numChannels, sampleRate, dataLength)
    ensures forall j :: HeaderSize <= j < view.Length ==> view[j] == old(view[j])
  {
    WriteRiffChunk(view, dataLength);
    WriteFmtChunk(view, numChannels, sampleRate);
    WriteDataChunkHeader(view, dataLength);
  }

  /** `view.setInt16(offset, v, true)`: ToInt16 has the same two bytes as ToUint16. */
  method SetInt16(view: array<byte>, offset: nat, v: int)
    requires offset + 2 <= view.Length
    modifies view
    ensures ReadInt16LE(view[..], offset) == Int16Wrap(v)
    ensures forall j :: 0 <= j < view.Length && (j < offset || offset + 2 <= j) ==> view[j] == old(view[j])
  {
    SetUint16(view, offset, v);
  }

  lemma MulMonotone(a: nat, b: nat, n: nat)
    requires a <= b
    ensures a * n <= b * n
  {
    assert b * n == a * n + (b - a) * n;
  }

  /** Slot `i * numChannels + c` of the interleaved sample data holds frame `i`, channel `c`. */
  lemma SlotOf(i: nat, c: nat, numChannels: nat)
    requires c < numChannels
    ensures (i * numChannels + c) / numChannels == i
    ensures (i * numChannels + c) % numChannels == c
  {
    var x := i * numChannels + c;
    var q, r := x / numChannels, x % numChannels;
    assert x == q * numChannels + r;
    if q < i {
      MulMonotone(q + 1, i, numChannels);
    } else if q > i {
      MulMonotone(i + 1, q, numChannels);
    }
  }

  /** The slot of frame `i`, channel `c` lies inside the data of `frames` frames. */
  lemma SlotBound(i: nat, c: nat, frames: nat, numChannels: nat)
    requires i < frames && c < numChannels
    ensures i * numChannels + c < frames * numChannels
  {
    MulMonotone(i + 1, frames, numChannels);
  }

  /** Every slot of the data of `frames` frames belongs to one of those frames. */
  lemma SlotFrame(s: nat, numChannels: nat, frames: nat)
    requires 0 < numChannels && s < frames * numChannels
    ensures s / numChannels < frames
  {
    if s / numChannels >= frames {
      MulMonotone(frames, s / numChannels, numChannels);
    }
  }

  /** The 16-bit value stored in sample slot `s` of a WAVE file. */
  function SlotValue(w: seq<byte>, s: nat): int
    requires HeaderSize + 2 * s + 2 <= |w|
  {
    ReadInt16LE(w, HeaderSize + 2 * s)
  }

  /** The sample that belongs in slot `s`: frame `s / channels`, channel `s % channels`. */
  function SlotSample(buffer: AudioBuffer<real>, s: nat): real
    requires WellFormed(buffer) && 0 < |buffer.channels|
    requires s < buffer.length * |buffer.channels|
  {
    var n := |buffer.channels|;
    SlotFrame(s, n, buffer.length);
    buffer.channels[s % n][s / n]
  }

  /** The bytes of sample slots `lo` (inclusive) to `hi` (exclusive) hold the quantized samples. */
  ghost predicate SlotsWritten(w: seq<byte>, buffer: AudioBuffer<real>, lo: nat, hi: nat)
    requires WellFormed(buffer) && 0 < |buffer.channels|
    requires hi <= buffer.length * |buffer.channels| && HeaderSize + 2 * hi <= |w|
  {
    forall s :: lo <= s < hi ==> SlotValue(w, s) == Quantize(SlotSample(buffer, s))
  }

  /**
    In a WAVE file whose sample slots are written, the sample of frame `i`,
    channel `c` is the signed 16-bit value at byte 44 + 2 * (i * channels + c).
  */
  lemma SampleAt(w: seq<byte>, buffer: AudioBuffer<real>, i: nat, c: nat)
    requires WellFormed(buffer) && 0 < |buffer.channels|
    requires |w| == HeaderSize + 2 * (buffer.length * |buffer.channels|)
    requires SlotsWritten(w, buffer, 0, buffer.length * |buffer.channels|)
    requires i < buffer.length && c < |buffer.channels|
    ensures HeaderSize + 2 * (i * |buffer.channels| + c) + 2 <= |w|
    ensures ReadInt16LE(w, HeaderSize + 2 * (i * |buffer.channels| + c)) == Quantize(buffer.channels[c][i])
  {
    var n := |buffer.channels|;
    var s := i * n + c;
    SlotBound(i, c, buffer.length, n);
    SlotOf(i, c, n);
    assert SlotSample(buffer, s) == buffer.channels[c][i];
    assert SlotValue(w, s) == Quantize(SlotSample(buffer, s));
  }

  /** The inner loop of script.js:591-601: the samples of frame `i`, one per channel, from `offset` on. */
  method WriteFrame(view: array<byte>, buffer: AudioBuffer<real>, i: nat, offset: nat)
    requires WellFormed(buffer) && 0 < |buffer.channels| && i < buffer.length
    requires (i + 1) * |buffer.channels| <= buffer.length * |buffer.channels|
    requires view.Length == HeaderSize + 2 * (buffer.length * |buffer.channels|)
    requires offset == HeaderSize + 2 * (i * |buffer.channels|)
    modifies view
    ensures SlotsWritten(view[..], buffer, i * |buffer.channels|, (i + 1) * |buffer.channels|)
    ensures forall j :: 0 <= j < view.Length && (j < offset || offset + 2 * |buffer.channels| <= j) ==> view[j] == old(view[j])
  {
    var numChannels := |buffer.channels|;
    var base := i * numChannels;
    assert (i + 1) * numChannels == base + numChannels;
    var at := offset;
    for c := 0 to numChannels
      invariant at == offset + 2 * c
      invariant SlotsWritten(view[..], buffer, base, base + c)
      invariant forall j :: 0 <= j < view.Length && (j < offset || at <= j) ==> view[j] == old(view[j])
    {
      SlotOf(i, c, numChannels);
      var sample := Clamp(buffer.channels[c][i]);
      var value := Truncate(if sample < 0.0 then sample * 32768.0 else sample * 32767.0);
      ghost var before := view[..];
      SetInt16(view, at, value);
      assert SlotValue(view[..], base + c) == value;
      forall s | base <= s < base + c
        ensures SlotValue(view[..], s) == SlotValue(before, s)
      {
      }
      at := at + 2;
    }
  }

  /** Two adjacent written slot ranges make one. */
  lemma SlotsWrittenJoin(w: seq<byte>, buffer: AudioBuffer<real>, lo: nat, mid: nat, hi: nat)
    requires WellFormed(buffer) && 0 < |buffer.channels|
    requires lo <= mid <= hi <= buffer.length * |buffer.channels| && HeaderSize + 2 * hi <= |w|
    requires SlotsWritten(w, buffer, lo, mid) && SlotsWritten(w, buffer, mid, hi)
    ensures SlotsWritten(w, buffer, lo, hi)
  {
  }

  /** Written slots stay written while their bytes are untouched. */
  lemma SlotsWrittenKept(w: seq<byte>, w': seq<byte>, buffer: AudioBuffer<real>, lo: nat, hi: nat)
    requires WellFormed(buffer) && 0 < |buffer.channels|
    requires lo <= hi <= buffer.length * |buffer.channels| && HeaderSize + 2 * hi <= |w| == |w'|
    requires SlotsWritten(w, buffer, lo, hi)
    requires forall j :: HeaderSize + 2 * lo <= j < HeaderSize + 2 * hi ==> w'[j] == w[j]
    ensures SlotsWritten(w', buffer, lo, hi)
  {
    forall s | lo <= s < hi
      ensures SlotValue(w', s) == SlotValue(w, s)
    {
      assert w'[HeaderSize + 2 * s] == w[HeaderSize + 2 * s];
      assert w'[HeaderSize + 2 * s + 1] == w[HeaderSize + 2 * s + 1];
    }
  }

  /** The outer loop of script.js:590-601: every frame in turn, the header bytes untouched. */
  method WriteSamples(view: array<byte>, buffer: AudioBuffer<real>)
    requires WellFormed(buffer) && 0 < |buffer.channels|
    requires view.Length == HeaderSize + 2 * (buffer.length * |buffer.channels|)
    modifies view
    ensures SlotsWritten(view[..], buffer, 0, buffer.length * |buffer.channels|)
    ensures forall j :: 0 <= j < HeaderSize ==> view[j] == old(view[j])
  {
    var numChannels := |buffer.channels|;
    var offset := HeaderSize;
    for i := 0 to buffer.length
      invariant offset == HeaderSize + 2 * (i * numChannels)
      invariant i * numChannels <= buffer.length * numChannels
      invariant forall j :: 0 <= j < HeaderSize ==> view[j] == old(view[j])
      invariant SlotsWritten(view[..], buffer, 0, i * numChannels)
    {
      MulMonotone(i + 1, buffer.length, numChannels);
      assert (i + 1) * numChannels == i * numChannels + numChannels;
      ghost var before := view[..];
      WriteFrame(view, buffer, i, offset);
      SlotsWrittenKept(before, view[..], buffer, 0, i * numChannels);
      SlotsWrittenJoin(view[..], buffer, 0, i * numChannels, (i + 1) * numChannels);
      offset := offset + 2 * numChannels;
    }
  }

  /** `w` is the complete WAVE file of `buffer`: header, then every sample slot quantized. */
  ghost predicate Encodes(w: seq<byte>, buffer: AudioBuffer<real>)
    requires WellFormed(buffer)
  {
    && |w| == HeaderSize + 2 * (buffer.length * |buffer.channels|)
    && HeaderLayout(w, |buffer.channels|, buffer.sampleRate, buffer.length * |buffer.channels| * 2)
    && (0 < |buffer.channels| ==> SlotsWritten(w, buffer, 0, buffer.length * |buffer.channels|))
  }


  /**
    `bufferToWave(audioBuffer)` (script.js:561-604): the result is 44 +
    frames * channels * 2 bytes long, starts with the canonical PCM header,
    and sample slot `s` (bytes 44 + 2s and 45 + 2s) holds the quantized
    sample of frame `s / channels`, channel `s % channels` as a signed
    little-endian 16-bit value (restated per frame and channel by SampleAt).
  */
  method BufferToWave(buffer: AudioBuffer<real>) returns (wav: seq<byte>)
    requires WellFormed(buffer)
    ensures Encodes(wav, buffer)
  {
    var numChannels := |buffer.channels|;
    var length := buffer.length * numChannels * 2;
    var view := new byte[HeaderSize + length];
    WriteHeader(view, numChannels, buffer.sampleRate, length);
    ghost var header := view[..];
    if numChannels > 0 {
      WriteSamples(view, buffer);
    }
    wav := view[..];
    HeaderLayoutPrefix(header, wav, numChannels, buffer.sampleRate, length);
  }
}
