/**
 * The streaming PCM player of the live audio path. Base64 chunks are decoded
 * into byte buffers and queued; a pump takes the oldest chunk, converts it into
 * per-channel samples under the current format and schedules it, one buffer at
 * a time. A chunk that cannot be played is dropped and the pump moves on to the
 * next one; when a scheduled buffer ends, the pump runs again.
 *
 * The audio engine is reduced to what the player observes of it: whether the
 * context is running or resumes (`resumeOk`), whether it accepts a buffer of a
 * given shape (`accepts(channels, frames, sampleRate)`, false where allocating
 * or starting the buffer throws), and the log of buffers it has started.
 */
module AudioPlayer {
  import opened Wrappers
  import opened SeqFacts
  import opened Base64
  import opened PcmMime
  import opened PcmDecode

  /** A buffer handed to the audio engine: its sample rate and its channel data. */
  datatype AudioBuffer = AudioBuffer(sampleRate: int, channelData: seq<seq<real>>)

  /** Whether the engine can allocate and start a buffer of this many channels and frames at this rate. */
  type Engine = (int, int, int) -> bool

  // ---------------------------------------------------------------- one chunk

  /** The buffer a chunk becomes under a format, or None when the pump drops it. */
  function Playable(f: PcmFormat, pcm: seq<byte>, accepts: Engine): (b: Option<AudioBuffer>)
    requires Positive(f)
    ensures b.Some? <==> Decodable(f, pcm) && accepts(f.channels, FrameCount(f, pcm), f.sampleRate)
    ensures b.Some? ==> b.value.sampleRate == f.sampleRate && PcmDecode.Decode(f, pcm) == Some(b.value.channelData)
    ensures b.Some? ==> (|b.value.channelData| == f.channels
                         && (forall c :: 0 <= c < f.channels ==> |b.value.channelData[c]| * FrameBytes(f) == |pcm|)
                         && (forall c, x :: 0 <= c < f.channels && x in b.value.channelData[c] ==> -1.0 <= x < 1.0))
  {
    if Decodable(f, pcm) && accepts(f.channels, FrameCount(f, pcm), f.sampleRate)
    then Some(AudioBuffer(f.sampleRate, PcmDecode.Decode(f, pcm).value))
    else None
  }

  /**
   * The checks of the pump on one chunk, in the source's order: whole frames,
   * at least one frame, the engine's allocation, then the sample size, which
   * the source tests inside the channel loop. Its byte width `bitsPerSample / 8`
   * is fractional for sizes that are not multiples of 8, so frames are counted
   * in bits here: `len % (channels * bits / 8)` is 0 exactly when `8 * len` is a
   * multiple of `channels * bits`.
   */
  method ScheduleChunk(f: PcmFormat, pcmData: seq<byte>, accepts: Engine) returns (b: Option<AudioBuffer>)
    requires Positive(f)
    ensures b == Playable(f, pcmData, accepts)
  {
    var frameBits := f.channels * f.bitsPerSample;
    if Supported(f) {
      BitAlignment(|pcmData|, FrameBytes(f));
      assert frameBits == 8 * FrameBytes(f);
    }
    if (8 * |pcmData|) % frameBits != 0 {
      return None;
    }
    var frameCount := (8 * |pcmData|) / frameBits;
    if frameCount <= 0 {
      return None;
    }
    if !accepts(f.channels, frameCount, f.sampleRate) {
      return None;
    }
    if !Supported(f) {
      return None;
    }
    var channelData := DecodeChunk(f, pcmData);
    return Some(AudioBuffer(f.sampleRate, channelData.value));
  }

  /** Counting a chunk in bits: whole frames and the frame count are those counted in bytes. */
  lemma BitAlignment(len: nat, frameBytes: nat)
    requires frameBytes > 0
    ensures (8 * len) % (8 * frameBytes) == 8 * (len % frameBytes)
    ensures (8 * len) / (8 * frameBytes) == len / frameBytes
  {
    var q, r := len / frameBytes, len % frameBytes;
    assert 8 * len == q * (8 * frameBytes) + 8 * r;
    DivModUnique(8 * len, 8 * frameBytes, q, 8 * r);
  }

  /** Euclidean division is unique: a quotient and remainder in range are `/` and `%`. */
  lemma DivModUnique(a: int, d: int, q: int, r: int)
    requires d > 0 && a == q * d + r && 0 <= r < d
    ensures a / d == q && a % d == r
  {
    var q0, r0 := a / d, a % d;
    assert a == q0 * d + r0;
    if q0 > q {
      MulGap(q0, q, d);
      assert false;
    } else if q0 < q {
      MulGap(q, q0, d);
      assert false;
    }
  }

  /** Multiples of a positive number that differ differ by at least that number. */
  lemma MulGap(x: int, y: int, d: int)
    requires x > y && d > 0
    ensures x * d - y * d >= d
  {
    MulAtLeast(x - y, d);
    assert (x - y) * d == x * d - y * d;
  }

  lemma {:induction false} MulAtLeast(k: int, d: int)
    requires k >= 1 && d > 0
    ensures k * d >= d
    decreases k
  {
    if k > 1 {
      MulAtLeast(k - 1, d);
      assert k * d == (k - 1) * d + d;
    }
  }

  /** The bytes `Uint8Array` stores for a string's code units: each taken modulo 256. */
  function Uint8Of(bin: string): (bytes: seq<byte>)
    ensures |bytes| == |bin|
  {
    seq(|bin|, i requires 0 <= i < |bin| => (bin[i] as int) % 256)
  }

  /** The copy loop after `atob`: one byte per code unit. */
  method CopyCodeUnits(bin: string) returns (bytes: seq<byte>)
    ensures |bytes| == |bin|
    ensures forall i :: 0 <= i < |bin| ==> bytes[i] == (bin[i] as int) % 256
  {
    var a := new byte[|bin|];
    for i := 0 to |bin|
      invariant forall k :: 0 <= k < i ==> a[k] == (bin[k] as int) % 256
    {
      a[i] := (bin[i] as int) % 256;
    }
    bytes := a[..];
  }

  /** Copying the code units of `atob`'s result gives back the decoded bytes. */
  lemma Uint8OfBinaryString(b: seq<byte>)
    ensures Uint8Of(BinaryString(b)) == b
  {
    var u := Uint8Of(BinaryString(b));
    forall i | 0 <= i < |b| ensures u[i] == b[i] {
      assert BinaryString(b)[i] as int == b[i];
    }
  }

  /** A chunk sent as base64 reaches the queue as the bytes that were encoded. */
  lemma ChunkBytesRoundTrip(b: seq<byte>)
    ensures Atob(Encode(b)).Some? && Uint8Of(Atob(Encode(b)).value) == b
  {
    AtobEncode(b);
    Uint8OfBinaryString(b);
  }

  // ---------------------------------------------------------------- the pump

  datatype PumpResult = PumpResult(rest: seq<seq<byte>>, started: Option<AudioBuffer>)

  /**
   * The pump from an idle state: chunks are taken from the front of the queue
   * until one plays; with none playable the queue ends up empty.
   */
  function Pump(f: PcmFormat, q: seq<seq<byte>>, accepts: Engine): (p: PumpResult)
    requires Positive(f)
    ensures |p.rest| <= |q| && p.rest == q[|q| - |p.rest|..]
    ensures q != [] ==> |p.rest| < |q|
    ensures p.started.None? ==> p.rest == []
    ensures p.started.Some? ==> |p.rest| < |q| && Playable(f, q[|q| - |p.rest| - 1], accepts) == p.started
    ensures forall i :: 0 <= i < |q| - |p.rest| - 1 ==> Playable(f, q[i], accepts).None?
  {
    if q == [] then PumpResult([], None)
    else
      match Playable(f, q[0], accepts)
      case Some(b) => PumpResult(q[1..], Some(b))
      case None =>
        var p := Pump(f, q[1..], accepts);
        assert q[1..][|q| - 1 - |p.rest|..] == q[|q| - |p.rest|..];
        assert forall i :: 1 <= i < |q| - |p.rest| - 1 ==> q[i] == q[1..][i - 1];
        p
  }

  /** The buffers a queue will produce, in queue order: the playable chunks. */
  function PlayableChunks(f: PcmFormat, q: seq<seq<byte>>, accepts: Engine): (out: seq<AudioBuffer>)
    requires Positive(f)
    ensures |out| <= |q|
  {
    if q == [] then []
    else
      (match Playable(f, q[0], accepts) case Some(b) => [b] case None => [])
      + PlayableChunks(f, q[1..], accepts)
  }

  /** One pump starts the first playable chunk and leaves exactly the later ones. */
  lemma {:induction false} PumpTakesFirstPlayable(f: PcmFormat, q: seq<seq<byte>>, accepts: Engine)
    requires Positive(f)
    ensures var p := Pump(f, q, accepts);
      (p.started.None? <==> PlayableChunks(f, q, accepts) == []) &&
      (p.started.Some? ==> [p.started.value] + PlayableChunks(f, p.rest, accepts) == PlayableChunks(f, q, accepts))
  {
    if q != [] && Playable(f, q[0], accepts).None? {
      PumpTakesFirstPlayable(f, q[1..], accepts);
    }
  }

  lemma {:induction false} PlayableChunksAppend(f: PcmFormat, a: seq<seq<byte>>, b: seq<seq<byte>>, accepts: Engine)
    requires Positive(f)
    ensures PlayableChunks(f, a + b, accepts) == PlayableChunks(f, a, accepts) + PlayableChunks(f, b, accepts)
  {
    if a == [] {
      assert a + b == b;
    } else {
      assert (a + b)[1..] == a[1..] + b;
      PlayableChunksAppend(f, a[1..], b, accepts);
    }
  }

  /** A chunk the pump drops leaves the output of the chunks after it untouched. */
  lemma DroppedChunkIsSkipped(f: PcmFormat, bad: seq<byte>, q: seq<seq<byte>>, accepts: Engine)
    requires Positive(f) && Playable(f, bad, accepts).None?
    ensures PlayableChunks(f, [bad] + q, accepts) == PlayableChunks(f, q, accepts)
    ensures Pump(f, [bad] + q, accepts) == Pump(f, q, accepts)
  {
    assert ([bad] + q)[1..] == q;
  }

  // ---------------------------------------------------------------- player state

  /**
   * A snapshot of the player: the current format, the queued chunks, whether a
   * buffer is playing, which started buffer is the current source, and every
   * buffer started so far.
   */
  datatype PlayerState = PlayerState(
    format: Option<PcmFormat>,
    queue: seq<seq<byte>>,
    isPlaying: bool,
    current: Option<nat>,
    started: seq<AudioBuffer>)

  /** A buffer is playing exactly when there is a current source; a format is always positive. */
  predicate Inv(s: PlayerState) {
    (s.format.Some? ==> Positive(s.format.value))
    && (s.isPlaying <==> s.current.Some?)
    && (s.current.Some? ==> s.current.value < |s.started|)
  }

  const Initial := PlayerState(None, [], false, None, [])

  /** `stopAndClear`: the current source is stopped, the queue emptied, nothing plays. */
  function StopStep(s: PlayerState): PlayerState {
    s.(queue := [], isPlaying := false, current := None)
  }

  /**
   * `play`: nothing happens while a buffer plays, with an empty queue, without a
   * format, or when the suspended context fails to resume; otherwise the pump
   * runs and the first playable chunk becomes the current source.
   */
  function PlayStep(s: PlayerState, resumeOk: bool, accepts: Engine): PlayerState
    requires Inv(s)
  {
    if s.isPlaying || s.queue == [] || s.format.None? || !resumeOk then s
    else
      var p := Pump(s.format.value, s.queue, accepts);
      match p.started
      case None => s.(queue := [])
      case Some(b) => s.(queue := p.rest, isPlaying := true, current := Some(|s.started|), started := s.started + [b])
  }

  /**
   * `addChunk`: without a format, or when `atob` throws, the chunk is dropped;
   * otherwise its bytes are queued and the pump runs.
   */
  function AddChunkStep(s: PlayerState, base64Chunk: string, resumeOk: bool, accepts: Engine): PlayerState
    requires Inv(s)
  {
    if s.format.None? then s
    else
      match Atob(base64Chunk)
      case None => s
      case Some(bin) => PlayStep(s.(queue := s.queue + [Uint8Of(bin)]), resumeOk, accepts)
  }

  /** The `onended` handler of the current source: it clears the source and runs the pump. */
  function EndedStep(s: PlayerState, resumeOk: bool, accepts: Engine): PlayerState
    requires Inv(s)
  {
    if s.current.None? then s
    else PlayStep(s.(isPlaying := false, current := None), resumeOk, accepts)
  }

  /**
   * `setFormat`: an unparsable type clears the format and keeps the queue; a
   * parsed type that differs from the current format first stops and clears.
   */
  function SetFormatStep(s: PlayerState, mimeType: string): PlayerState {
    match ParsePcmMimeType(mimeType)
    case None => s.(format := None)
    case Some(f) =>
      var t := if s.format.Some? && s.format.value != f then StopStep(s) else s;
      t.(format := Some(f))
  }

  /** `isActive`: a buffer plays or chunks wait. */
  predicate Active(s: PlayerState) {
    s.isPlaying || |s.queue| > 0
  }

  // ---------------------------------------------------------------- properties of the steps

  /**
   * What the engine will have played once the queue runs dry under the current
   * format: the buffers started so far, then the playable queued chunks in order.
   */
  function PendingOutput(s: PlayerState, accepts: Engine): seq<AudioBuffer>
    requires Inv(s)
  {
    if s.format.None? then s.started else s.started + PlayableChunks(s.format.value, s.queue, accepts)
  }

  /** Every step keeps the invariant. */
  lemma StepsKeepInv(s: PlayerState, mimeType: string, chunk: string, resumeOk: bool, accepts: Engine)
    requires Inv(s)
    ensures Inv(StopStep(s)) && Inv(SetFormatStep(s, mimeType))
    ensures Inv(PlayStep(s, resumeOk, accepts)) && Inv(AddChunkStep(s, chunk, resumeOk, accepts))
    ensures Inv(EndedStep(s, resumeOk, accepts))
  {
    PlayKeepsInv(s, resumeOk, accepts);
    if s.format.Some? {
      match Atob(chunk)
      case Some(bin) => PlayKeepsInv(s.(queue := s.queue + [Uint8Of(bin)]), resumeOk, accepts);
      case None =>
    }
    if s.current.Some? {
      PlayKeepsInv(s.(isPlaying := false, current := None), resumeOk, accepts);
    }
  }

  lemma PlayKeepsInv(s: PlayerState, resumeOk: bool, accepts: Engine)
    requires Inv(s)
    ensures Inv(PlayStep(s, resumeOk, accepts))
  {
  }

  /**
   * The pump neither loses nor reorders output: a playable chunk leaves the
   * queue only to be appended to the started buffers.
   */
  lemma PlayKeepsPendingOutput(s: PlayerState, resumeOk: bool, accepts: Engine)
    requires Inv(s)
    ensures PendingOutput(PlayStep(s, resumeOk, accepts), accepts) == PendingOutput(s, accepts)
  {
    if !(s.isPlaying || s.queue == [] || s.format.None? || !resumeOk) {
      var f := s.format.value;
      var p := Pump(f, s.queue, accepts);
      PumpTakesFirstPlayable(f, s.queue, accepts);
      if p.started.Some? {
        var b := p.started.value;
        assert PendingOutput(PlayStep(s, resumeOk, accepts), accepts) == (s.started + [b]) + PlayableChunks(f, p.rest, accepts);
        AppendAssociates(s.started, [b], PlayableChunks(f, p.rest, accepts));
      }
    }
  }

  /** The end of the current buffer starts the next playable chunk and loses nothing. */
  lemma EndedKeepsPendingOutput(s: PlayerState, resumeOk: bool, accepts: Engine)
    requires Inv(s)
    ensures PendingOutput(EndedStep(s, resumeOk, accepts), accepts) == PendingOutput(s, accepts)
  {
    if s.current.Some? {
      PlayKeepsPendingOutput(s.(isPlaying := false, current := None), resumeOk, accepts);
    }
  }

  /** A chunk added under a format joins the end of the pending output, after everything queued before it. */
  lemma AddChunkAppendsOutput(s: PlayerState, base64Chunk: string, resumeOk: bool, accepts: Engine)
    requires Inv(s) && s.format.Some?
    ensures var t := AddChunkStep(s, base64Chunk, resumeOk, accepts);
      PendingOutput(t, accepts) == PendingOutput(s, accepts) +
        match Base64.Decode(base64Chunk)
        case None => []
        case Some(bytes) => PlayableChunks(s.format.value, [bytes], accepts)
  {
    var f := s.format.value;
    match Base64.Decode(base64Chunk)
    case None =>
      assert AddChunkStep(s, base64Chunk, resumeOk, accepts) == s;
    case Some(bytes) =>
      assert Atob(base64Chunk) == Some(BinaryString(bytes));
      Uint8OfBinaryString(bytes);
      var u := s.(queue := s.queue + [bytes]);
      assert AddChunkStep(s, base64Chunk, resumeOk, accepts) == PlayStep(u, resumeOk, accepts);
      PlayKeepsPendingOutput(u, resumeOk, accepts);
      PlayableChunksAppend(f, s.queue, [bytes], accepts);
      assert PendingOutput(u, accepts) == s.started + (PlayableChunks(f, s.queue, accepts) + PlayableChunks(f, [bytes], accepts));
      AppendAssociates(s.started, PlayableChunks(f, s.queue, accepts), PlayableChunks(f, [bytes], accepts));
  }

  /** Once nothing is queued, everything pending has been started. */
  lemma IdleOutputDelivered(s: PlayerState, accepts: Engine)
    requires Inv(s) && s.queue == []
    ensures PendingOutput(s, accepts) == s.started
  {
  }

  /**
   * The pump never stalls on a bad chunk: with a format and a running context,
   * after `play` either a buffer plays or the queue is empty.
   */
  lemma PlayNeverStalls(s: PlayerState, accepts: Engine)
    requires Inv(s) && s.format.Some?
    ensures var t := PlayStep(s, true, accepts); t.isPlaying || t.queue == []
  {
  }

  /** A new, different format stops playback and empties the queue before it takes effect. */
  lemma FormatChangeFlushes(s: PlayerState, mimeType: string)
    requires s.format.Some? && ParsePcmMimeType(mimeType).Some?
    requires ParsePcmMimeType(mimeType).value != s.format.value
    ensures var t := SetFormatStep(s, mimeType);
      t.queue == [] && !t.isPlaying && t.current.None? && t.format == ParsePcmMimeType(mimeType)
      && t.started == s.started
  {
  }

  /** Repeating the current format changes nothing. */
  lemma SameFormatKeepsState(s: PlayerState, mimeType: string)
    requires s.format.Some? && ParsePcmMimeType(mimeType) == s.format
    ensures SetFormatStep(s, mimeType) == s
  {
  }

  /** An unparsable type unsets the format but leaves playback and the queue alone. */
  lemma InvalidFormatKeepsQueue(s: PlayerState, mimeType: string)
    requires ParsePcmMimeType(mimeType).None?
    ensures SetFormatStep(s, mimeType) == s.(format := None)
  {
  }

  /** `stopAndClear` twice is `stopAndClear` once, and leaves the player inactive. */
  lemma StopIdempotent(s: PlayerState)
    ensures StopStep(StopStep(s)) == StopStep(s)
    ensures !Active(StopStep(s))
  {
  }

  /** Before any format is set, chunks are dropped: nothing is queued and the player stays inactive. */
  lemma DropBeforeFormat(base64Chunk: string, resumeOk: bool, accepts: Engine)
    ensures AddChunkStep(Initial, base64Chunk, resumeOk, accepts) == Initial
    ensures !Active(AddChunkStep(Initial, base64Chunk, resumeOk, accepts))
  {
  }

  /** A playable chunk that reaches an idle player is started at once. */
  lemma IdlePlaysChunkAtOnce(s: PlayerState, pcm: seq<byte>, accepts: Engine)
    requires Inv(s) && s.format.Some? && s.queue == [] && !s.isPlaying
    requires Playable(s.format.value, pcm, accepts).Some?
    ensures var t := AddChunkStep(s, Encode(pcm), true, accepts);
      t == s.(isPlaying := true, current := Some(|s.started|),
              started := s.started + [Playable(s.format.value, pcm, accepts).value])
  {
    DecodeEncode(pcm);
    Uint8OfBinaryString(pcm);
    assert s.queue + [pcm] == [pcm];
  }

  /**
   * The stream of a live session end to end: the format `audio/pcm;rate=16000;channels=1`
   * is set, then one base64 chunk of eight 16-bit samples of 16384 arrives; it is
   * started at once as a mono buffer of eight samples of 0.5 at 16000 Hz.
   */
  lemma HalfScaleStream(accepts: Engine)
    requires accepts(1, 8, 16000)
    ensures var s1 := SetFormatStep(Initial, PcmForm(16000, 1));
      s1.format == Some(PcmFormat(16000, 1, 16)) &&
      var s2 := AddChunkStep(s1, Encode(HalfScaleChunk()), true, accepts);
      s2.isPlaying && s2.queue == [] && s2.started == [AudioBuffer(16000, [HalfScaleChannel()])]
  {
    var f := PcmFormat(16000, 1, 16);
    PcmFormParses(16000, 1);
    var s1 := SetFormatStep(Initial, PcmForm(16000, 1));
    assert s1 == Initial.(format := Some(f));
    HalfScaleChunkPlays(accepts);
    IdlePlaysChunkAtOnce(s1, HalfScaleChunk(), accepts);
    var b := AudioBuffer(16000, [HalfScaleChannel()]);
    var s2 := AddChunkStep(s1, Encode(HalfScaleChunk()), true, accepts);
    assert s2.started == s1.started + [b];
    EmptyThenOne(s1.started, b);
  }

  /** The half-scale chunk is one playable mono buffer of eight frames at 16000 Hz. */
  lemma HalfScaleChunkPlays(accepts: Engine)
    requires accepts(1, 8, 16000)
    ensures Playable(PcmFormat(16000, 1, 16), HalfScaleChunk(), accepts) == Some(AudioBuffer(16000, [HalfScaleChannel()]))
  {
    var f := PcmFormat(16000, 1, 16);
    HalfScaleScenario(16000);
    assert |HalfScaleChunk()| == 16;
    assert FrameCount(f, HalfScaleChunk()) == 8;
  }

  // ---------------------------------------------------------------- the player object

  class AudioLivePlayer {
    var pcmFormat: Option<PcmFormat>
    var audioQueue: seq<seq<byte>>
    var isPlaying: bool
    var currentSource: Option<nat>
    var started: seq<AudioBuffer>

    function State(): PlayerState
      reads this
    {
      PlayerState(pcmFormat, audioQueue, isPlaying, currentSource, started)
    }

    predicate Valid()
      reads this
    {
      Inv(State())
    }

    constructor ()
      ensures Valid() && State() == Initial
    {
      pcmFormat := None;
      audioQueue := [];
      isPlaying := false;
      currentSource := None;
      started := [];
    }

    method StopAndClear()
      requires Valid()
      modifies this
      ensures Valid() && State() == StopStep(old(State()))
    {
      if currentSource.Some? {
        currentSource := None;
      }
      audioQueue := [];
      isPlaying := false;
    }

    method SetFormat(mimeType: string)
      requires Valid()
      modifies this
      ensures Valid() && State() == SetFormatStep(old(State()), mimeType)
    {
      var format := ParsePcmMimeType(mimeType);
      if format.Some? {
        if pcmFormat.Some? && pcmFormat.value != format.value {
          StopAndClear();
        }
        pcmFormat := format;
      } else {
        pcmFormat := None;
      }
    }

    method Play(resumeOk: bool, accepts: Engine)
      requires Valid()
      modifies this
      ensures Valid() && State() == PlayStep(old(State()), resumeOk, accepts)
    {
      if isPlaying || |audioQueue| == 0 || pcmFormat.None? {
        return;
      }
      if !resumeOk {
        isPlaying := false;
        return;
      }
      var f := pcmFormat.value;
      while audioQueue != []
        invariant Valid() && pcmFormat == old(pcmFormat) == Some(f)
        invariant !isPlaying && currentSource.None? && started == old(started)
        invariant Pump(f, audioQueue, accepts) == Pump(f, old(audioQueue), accepts)
        decreases |audioQueue|
      {
        isPlaying := true;
        var pcmData := audioQueue[0];
        audioQueue := audioQueue[1..];
        var buffer := ScheduleChunk(f, pcmData, accepts);
        if buffer.Some? {
          started := started + [buffer.value];
          currentSource := Some(|started| - 1);
          return;
        }
        isPlaying := false;
      }
    }

    method AddChunk(base64Chunk: string, resumeOk: bool, accepts: Engine)
      requires Valid()
      modifies this
      ensures Valid() && State() == AddChunkStep(old(State()), base64Chunk, resumeOk, accepts)
    {
      if pcmFormat.None? {
        return;
      }
      var binaryString := Atob(base64Chunk);
      if binaryString.None? {
        return;
      }
      var bytes := CopyCodeUnits(binaryString.value);
      assert bytes == Uint8Of(binaryString.value);
      audioQueue := audioQueue + [bytes];
      Play(resumeOk, accepts);
    }

    /** The current source reached its end. */
    method OnEnded(resumeOk: bool, accepts: Engine)
      requires Valid()
      modifies this
      ensures Valid() && State() == EndedStep(old(State()), resumeOk, accepts)
    {
      if currentSource.None? {
        return;
      }
      isPlaying := false;
      currentSource := None;
      Play(resumeOk, accepts);
    }

    function IsActive(): (active: bool)
      reads this
      ensures active <==> Active(State())
    {
      isPlaying || |audioQueue| > 0
    }
  }
}
