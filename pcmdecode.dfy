/**
 * Turning one chunk of interleaved raw PCM into per-channel sample arrays, as the
 * live player does before it schedules a buffer: 16-bit samples are signed
 * little-endian integers scaled by 1/32768, 8-bit samples are unsigned with a
 * bias of 128 and scaled by 1/128. A chunk whose length is not a whole number of
 * frames, an empty chunk and a sample size other than 8 or 16 bits are dropped.
 */
module PcmDecode {
  import opened Wrappers
  import opened Base64
  import opened PcmMime

  // ---------------------------------------------------------------- index arithmetic

  lemma MulMonotone(a: nat, b: nat, c: nat)
    requires a <= b
    ensures a * c <= b * c
  {
  }

  /** Frame j, channel c sits at interleaved position j * channels + c, inside the chunk. */
  lemma InterleavedBound(j: nat, c: nat, channels: nat, frames: nat)
    requires j < frames && c < channels
    ensures j * channels + c + 1 <= frames * channels
  {
    MulMonotone(j + 1, frames, channels);
  }

  /** The frame and channel of an interleaved position are recovered by division. */
  lemma DivModInterleaved(j: nat, c: nat, channels: nat)
    requires c < channels
    ensures (j * channels + c) / channels == j
    ensures (j * channels + c) % channels == c
  {
    var k := j * channels + c;
    var q, r := k / channels, k % channels;
    assert k == q * channels + r;
    if q < j {
      MulMonotone(q + 1, j, channels);
    } else if q > j {
      MulMonotone(j + 1, q, channels);
    }
  }

  /** A length that is a whole number of frames is the frame count times the frame size. */
  lemma WholeFrames(len: nat, size: nat)
    requires size > 0 && len % size == 0
    ensures len == (len / size) * size
  {
  }

  lemma FramesOfProduct(frames: nat, size: nat)
    requires size > 0
    ensures (frames * size) % size == 0 && (frames * size) / size == frames
  {
    DivModInterleaved(frames, 0, size);
  }

  // ---------------------------------------------------------------- samples

  /** Only 8- and 16-bit samples are converted. */
  predicate Supported(f: PcmFormat) {
    f.bitsPerSample == 16 || f.bitsPerSample == 8
  }

  function BytesPerSample(f: PcmFormat): (n: nat)
    requires Supported(f)
    ensures n == 1 || n == 2
  {
    f.bitsPerSample / 8
  }

  /** The bytes of one frame: one sample per channel. */
  function FrameBytes(f: PcmFormat): (n: nat)
    requires Supported(f) && f.channels > 0
    ensures n > 0
  {
    f.channels * BytesPerSample(f)
  }

  /** The 16-bit two's-complement value of a little-endian byte pair. */
  function Int16(lo: byte, hi: byte): (v: int)
    ensures -32768 <= v < 32768
    ensures (lo + 256 * hi) % 65536 == v % 65536
  {
    var u := lo as int + 256 * hi as int;
    if u >= 32768 then u - 65536 else u
  }

  /** Sample k of the chunk, in [-1, 1): at most 32767/32768 for 16 bits, 127/128 for 8 bits. */
  function SampleAt(f: PcmFormat, pcm: seq<byte>, k: nat): (x: real)
    requires Supported(f) && (k + 1) * BytesPerSample(f) <= |pcm|
    ensures -1.0 <= x < 1.0
    ensures f.bitsPerSample == 16 ==> x <= 32767.0 / 32768.0
    ensures f.bitsPerSample == 8 ==> x <= 127.0 / 128.0
  {
    if f.bitsPerSample == 16 then Int16(pcm[2 * k], pcm[2 * k + 1]) as real / 32768.0
    else (pcm[k] as int - 128) as real / 128.0
  }

  /** 8-bit samples are offset binary: scaling back by 128 and adding 128 gives the byte. */
  lemma EightBitOffsetBinary(f: PcmFormat, pcm: seq<byte>, k: nat)
    requires f.bitsPerSample == 8 && k < |pcm|
    ensures SampleAt(f, pcm, k) * 128.0 + 128.0 == pcm[k] as real
    ensures pcm[k] == 128 ==> SampleAt(f, pcm, k) == 0.0
  {
  }

  /** A chunk that becomes a buffer: supported sample size, whole frames, at least one. */
  predicate Decodable(f: PcmFormat, pcm: seq<byte>) {
    Supported(f) && f.channels > 0 && |pcm| % FrameBytes(f) == 0 && |pcm| > 0
  }

  function FrameCount(f: PcmFormat, pcm: seq<byte>): (n: nat)
    requires Decodable(f, pcm)
    ensures n > 0 && |pcm| == n * FrameBytes(f)
  {
    WholeFrames(|pcm|, FrameBytes(f));
    |pcm| / FrameBytes(f)
  }

  /** The sample of frame j on channel c. */
  function FrameSample(f: PcmFormat, pcm: seq<byte>, j: nat, c: nat): real
    requires Decodable(f, pcm) && j < FrameCount(f, pcm) && c < f.channels
  {
    InterleavedBound(j, c, f.channels, FrameCount(f, pcm));
    MulMonotone(j * f.channels + c + 1, FrameCount(f, pcm) * f.channels, BytesPerSample(f));
    SampleAt(f, pcm, j * f.channels + c)
  }

  function Channel(f: PcmFormat, pcm: seq<byte>, c: nat): (data: seq<real>)
    requires Decodable(f, pcm) && c < f.channels
    ensures |data| == FrameCount(f, pcm)
  {
    seq(FrameCount(f, pcm), j requires 0 <= j < FrameCount(f, pcm) => FrameSample(f, pcm, j, c))
  }

  /**
   * The channel data of a chunk, or None when the player drops it. Channel c
   * takes every channels-th sample starting at sample c.
   */
  function Decode(f: PcmFormat, pcm: seq<byte>): (r: Option<seq<seq<real>>>)
    requires f.channels > 0
    ensures r.Some? <==> Decodable(f, pcm)
    ensures r.Some? ==> |r.value| == f.channels
    ensures r.Some? ==> forall c :: 0 <= c < f.channels ==> |r.value[c]| * FrameBytes(f) == |pcm|
    ensures r.Some? ==> forall c, x :: 0 <= c < f.channels && x in r.value[c] ==> -1.0 <= x < 1.0
  {
    if !Decodable(f, pcm) then None
    else Some(seq(f.channels, c requires 0 <= c < f.channels => Channel(f, pcm, c)))
  }

  /** Reads one sample the way the typed-array views of the source do. */
  method ReadSample(f: PcmFormat, pcm: seq<byte>, k: nat) returns (x: real)
    requires Supported(f) && (k + 1) * BytesPerSample(f) <= |pcm|
    ensures x == SampleAt(f, pcm, k)
  {
    if f.bitsPerSample == 16 {
      var u := pcm[2 * k] as int + 256 * pcm[2 * k + 1] as int;
      var v := if u >= 32768 then u - 65536 else u;
      x := v as real / 32768.0;
    } else {
      x := (pcm[k] as int - 128) as real / 128.0;
    }
  }

  /** Fills the array of channel i, frame by frame. */
  method FillChannel(f: PcmFormat, pcm: seq<byte>, i: nat) returns (data: seq<real>)
    requires Decodable(f, pcm) && i < f.channels
    ensures data == Channel(f, pcm, i)
  {
    var frameCount := |pcm| / FrameBytes(f);
    var channelData := new real[frameCount];
    for j := 0 to frameCount
      invariant forall jj :: 0 <= jj < j ==> channelData[jj] == FrameSample(f, pcm, jj, i)
    {
      var k := j * f.channels + i;
      InterleavedBound(j, i, f.channels, frameCount);
      MulMonotone(k + 1, frameCount * f.channels, BytesPerSample(f));
      channelData[j] := ReadSample(f, pcm, k);
    }
    data := channelData[..];
  }

  /**
   * The conversion loop of the player, without the guard of the source: each
   * channel array is filled from the interleaved samples.
   */
  method DecodeChunk(f: PcmFormat, pcm: seq<byte>) returns (r: Option<seq<seq<real>>>)
    requires f.channels > 0
    ensures r == Decode(f, pcm)
  {
    if !Supported(f) || |pcm| % FrameBytes(f) != 0 || |pcm| == 0 {
      return None;
    }
    var channels: seq<seq<real>> := [];
    for i := 0 to f.channels
      invariant |channels| == i
      invariant forall c :: 0 <= c < i ==> channels[c] == Channel(f, pcm, c)
    {
      var channelData := FillChannel(f, pcm, i);
      channels := channels + [channelData];
    }
    assert channels == Decode(f, pcm).value;
    return Some(channels);
  }

  // ---------------------------------------------------------------- the guard as written

  /**
   * The bounds test of the source before it reads channel i: it compares the
   * chunk length with the offset of channel i plus the length of the whole chunk.
   */
  predicate GuardTrips(f: PcmFormat, pcm: seq<byte>, i: nat)
    requires Decodable(f, pcm)
  {
    |pcm| < i * BytesPerSample(f) + FrameCount(f, pcm) * f.channels * BytesPerSample(f)
  }

  function AsWrittenFrom(f: PcmFormat, pcm: seq<byte>, i: nat): Option<seq<seq<real>>>
    requires Decodable(f, pcm) && i <= f.channels
    decreases f.channels - i
  {
    if i == f.channels then Decode(f, pcm)
    else if GuardTrips(f, pcm, i) then None
    else AsWrittenFrom(f, pcm, i + 1)
  }

  /** The conversion as the source writes it: the guard is tested for every channel in turn. */
  function DecodeAsWritten(f: PcmFormat, pcm: seq<byte>): Option<seq<seq<real>>>
    requires f.channels > 0
  {
    if !Decodable(f, pcm) then None else AsWrittenFrom(f, pcm, 0)
  }

  lemma GuardTripsIff(f: PcmFormat, pcm: seq<byte>, i: nat)
    requires Decodable(f, pcm)
    ensures GuardTrips(f, pcm, i) <==> i > 0
  {
    var n := FrameCount(f, pcm);
    assert n * f.channels * BytesPerSample(f) == n * FrameBytes(f);
  }

  lemma {:induction false} AsWrittenFromPositive(f: PcmFormat, pcm: seq<byte>, i: nat)
    requires Decodable(f, pcm) && 0 < i < f.channels
    ensures AsWrittenFrom(f, pcm, i) == None
  {
    GuardTripsIff(f, pcm, i);
  }

  /**
   * As written, the guard trips on every channel after the first, so only mono
   * chunks are ever played: a stereo chunk is dropped however well-formed it is.
   */
  lemma AsWrittenDropsMultichannel(f: PcmFormat, pcm: seq<byte>)
    requires f.channels > 0
    ensures DecodeAsWritten(f, pcm).Some? <==> Decode(f, pcm).Some? && f.channels == 1
    ensures f.channels == 1 ==> DecodeAsWritten(f, pcm) == Decode(f, pcm)
  {
    if Decodable(f, pcm) {
      GuardTripsIff(f, pcm, 0);
      if f.channels > 1 {
        AsWrittenFromPositive(f, pcm, 1);
      } else {
        assert AsWrittenFrom(f, pcm, 1) == Decode(f, pcm);
      }
    }
  }

  /**
   * The bound the guard evidently means to check: the last sample read for any
   * channel ends inside the chunk.
   */
  lemma LastSampleInBounds(f: PcmFormat, pcm: seq<byte>, i: nat)
    requires Decodable(f, pcm) && i < f.channels
    ensures ((FrameCount(f, pcm) - 1) * f.channels + i + 1) * BytesPerSample(f) <= |pcm|
  {
    var n := FrameCount(f, pcm);
    InterleavedBound(n - 1, i, f.channels, n);
    MulMonotone((n - 1) * f.channels + i + 1, n * f.channels, BytesPerSample(f));
  }

  // ---------------------------------------------------------------- the inverse: interleaving 16-bit samples

  predicate IsInt16(v: int) {
    -32768 <= v < 32768
  }

  /** The little-endian bytes of a 16-bit two's-complement sample. */
  function Int16Bytes(v: int): (b: seq<byte>)
    requires IsInt16(v)
    ensures |b| == 2 && Int16(b[0], b[1]) == v
  {
    var u := if v < 0 then v + 65536 else v;
    [u % 256, u / 256]
  }

  /** Per-channel sample lists of equal length, as a stream of 16-bit frames. */
  predicate Rectangular(samples: seq<seq<int>>, frames: nat) {
    forall c :: 0 <= c < |samples| ==> |samples[c]| == frames && forall j :: 0 <= j < frames ==> IsInt16(samples[c][j])
  }

  /** Interleaves the channels frame by frame, two little-endian bytes per sample. */
  function Interleave16(samples: seq<seq<int>>, frames: nat): (pcm: seq<byte>)
    requires |samples| > 0 && Rectangular(samples, frames)
    ensures |pcm| == 2 * (frames * |samples|)
  {
    var channels := |samples|;
    seq(2 * (frames * channels), b requires 0 <= b < 2 * (frames * channels) =>
      var k := b / 2;
      var j, c := k / channels, k % channels;
      InterleavedIndex(k, channels, frames);
      Int16Bytes(samples[c][j])[b % 2])
  }

  lemma InterleavedIndex(k: nat, channels: nat, frames: nat)
    requires channels > 0 && k < frames * channels
    ensures k / channels < frames
  {
    if k / channels >= frames {
      MulMonotone(frames, k / channels, channels);
    }
  }

  /** The scaled samples the player should produce for a stream of 16-bit samples. */
  function Scaled(samples: seq<seq<int>>): seq<seq<real>> {
    seq(|samples|, c requires 0 <= c < |samples| =>
      seq(|samples[c]|, j requires 0 <= j < |samples[c]| => samples[c][j] as real / 32768.0))
  }

  lemma SampleOfInterleaved(samples: seq<seq<int>>, frames: nat, rate: int, j: nat, c: nat)
    requires |samples| > 0 && Rectangular(samples, frames) && rate > 0 && frames > 0
    requires j < frames && c < |samples|
    ensures var f := PcmFormat(rate, |samples|, 16); var pcm := Interleave16(samples, frames);
      Decodable(f, pcm) && FrameCount(f, pcm) == frames &&
      FrameSample(f, pcm, j, c) == samples[c][j] as real / 32768.0
  {
    var f := PcmFormat(rate, |samples|, 16);
    var pcm := Interleave16(samples, frames);
    var channels := |samples|;
    FramesOfProduct(frames, 2 * channels);
    assert 2 * (frames * channels) == frames * (2 * channels);
    assert FrameBytes(f) == 2 * channels;
    var k := j * channels + c;
    DivModInterleaved(j, c, channels);
    InterleavedBound(j, c, channels, frames);
    assert (2 * k) / 2 == k && (2 * k + 1) / 2 == k;
    assert pcm[2 * k] == Int16Bytes(samples[c][j])[0];
    assert pcm[2 * k + 1] == Int16Bytes(samples[c][j])[1];
  }

  /**
   * Decoding undoes the interleaving: a chunk built from 16-bit samples decodes
   * to those samples divided by 32768, channel by channel.
   */
  lemma DecodeInterleave16(samples: seq<seq<int>>, frames: nat, rate: int)
    requires |samples| > 0 && Rectangular(samples, frames) && rate > 0 && frames > 0
    ensures Decode(PcmFormat(rate, |samples|, 16), Interleave16(samples, frames)) == Some(Scaled(samples))
  {
    var f := PcmFormat(rate, |samples|, 16);
    var pcm := Interleave16(samples, frames);
    SampleOfInterleaved(samples, frames, rate, 0, 0);
    var r := Decode(f, pcm).value;
    var expected := Scaled(samples);
    assert |r| == |expected|;
    forall c | 0 <= c < |samples| ensures r[c] == expected[c] {
      assert r[c] == Channel(f, pcm, c);
      assert |r[c]| == frames == |expected[c]|;
      forall j | 0 <= j < frames ensures r[c][j] == expected[c][j] {
        SampleOfInterleaved(samples, frames, rate, j, c);
      }
    }
    assert r == expected;
  }

  /** Eight little-endian samples of 16384 (bytes 0x00 0x40), one channel. */
  function HalfScaleChunk(): seq<byte> {
    seq(16, i requires 0 <= i < 16 => if i % 2 == 0 then 0 else 64)
  }

  /** Eight samples at half of full scale. */
  function HalfScaleChannel(): seq<real> {
    seq(8, j => 0.5)
  }

  /** A mono 16-bit chunk of eight samples of 16384 decodes to one channel of eight halves. */
  lemma HalfScaleScenario(rate: int)
    requires rate > 0
    ensures Decode(PcmFormat(rate, 1, 16), HalfScaleChunk()) == Some([HalfScaleChannel()])
  {
    var samples := [seq(8, j => 16384)];
    assert Int16Bytes(16384) == [0, 64];
    assert Interleave16(samples, 8) == HalfScaleChunk();
    DecodeInterleave16(samples, 8, rate);
    assert 16384 as real / 32768.0 == 0.5;
    assert Scaled(samples)[0] == HalfScaleChannel();
    assert Scaled(samples) == [HalfScaleChannel()];
  }
}
