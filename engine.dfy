/**
 * The capture engine (lib/portaudio/engine.go): starting a loop, and one
 * iteration of that loop, which turns one interleaved multi-channel device
 * buffer into a stereo chunk and offers it to the record and playback queues.
 */
module Engine {
  import opened Types
  import opened State

  /** Hard clipping to the float sample range. */
  function Clamp(x: real): (r: real)
    ensures -1.0 <= r <= 1.0
    ensures -1.0 <= x <= 1.0 ==> r == x
  {
    if x > 1.0 then 1.0 else if x < -1.0 then -1.0 else x
  }

  /** Clamp gives the point of [-1, 1] nearest to its input. */
  lemma ClampIsNearest(x: real, y: real)
    requires -1.0 <= y <= 1.0
    ensures Abs(Clamp(x) - x) <= Abs(y - x)
  {
  }

  /** The gain a loop applies: a stored boost of exactly 0 means unity gain. */
  function EffectiveBoost(stored: real): (b: real)
    ensures b != 0.0
    ensures stored != 0.0 ==> b == stored
    ensures stored == 0.0 ==> b == 1.0
  {
    if stored == 0.0 then 1.0 else stored
  }

  /** The sample at `idx` of the device buffer, or silence past its end. */
  function SampleOrSilence(buf: seq<real>, idx: nat): real
  {
    if idx < |buf| then buf[idx] else 0.0
  }

  /** Output sample of frame `i` taken from input channel `ch`. */
  function Selected(buf: seq<real>, channels: nat, ch: nat, boost: real, i: nat): real
  {
    Clamp(SampleOrSilence(buf, i * channels + ch) * boost)
  }

  /** Frame `i` of a stereo chunk holds `l` at 2i and `r` at 2i+1. */
  predicate FrameAt(chunk: Chunk, i: nat, l: real, r: real)
  {
    2 * i + 1 < |chunk| && chunk[2 * i] == l && chunk[2 * i + 1] == r
  }

  /** The chunk one loop iteration builds from the device buffer `buf`: even
      positions come from channel chL, odd ones from channel chR. */
  function StereoChunk(buf: seq<real>, bufferSize: nat, channels: nat, chL: nat, chR: nat, boost: real): (c: Chunk)
    ensures |c| == 2 * bufferSize
    ensures InUnitRange(c)
  {
    seq(2 * bufferSize, k requires 0 <= k => Selected(buf, channels, if k % 2 == 0 then chL else chR, boost, k / 2))
  }

  /** The per-frame loop of the capture goroutine: for each frame, read the two
      chosen channels (silence when the offset is past the buffer), apply the
      gain, clamp, and write the pair at 2i and 2i+1 of a fresh chunk. */
  method ExtractStereo(buf: seq<real>, bufferSize: nat, channels: nat, chL: nat, chR: nat, boost: real)
    returns (chunk: Chunk)
    ensures |chunk| == 2 * bufferSize
    ensures forall i | 0 <= i < bufferSize ::
      FrameAt(chunk, i, Selected(buf, channels, chL, boost, i), Selected(buf, channels, chR, boost, i))
    ensures InUnitRange(chunk)
    ensures chunk == StereoChunk(buf, bufferSize, channels, chL, chR, boost)
  {
    ghost var spec := StereoChunk(buf, bufferSize, channels, chL, chR, boost);
    var stereoChunk := new real[2 * bufferSize];
    for i := 0 to bufferSize
      invariant forall k | 0 <= k < 2 * i :: stereoChunk[k] == spec[k]
    {
      var sL := ChannelSample(buf, i, channels, chL, boost);
      var sR := ChannelSample(buf, i, channels, chR, boost);
      StereoChunkLayout(buf, bufferSize, channels, chL, chR, boost, i);
      assert FrameAt(spec, i, sL, sR);
      stereoChunk[2 * i] := sL;
      stereoChunk[2 * i + 1] := sR;
    }
    chunk := stereoChunk[..];
    assert chunk == spec;
    StereoChunkFrames(buf, bufferSize, channels, chL, chR, boost);
  }

  /** The loop body's treatment of one channel of frame i: the offset
      i*channels + ch, the guarded read, the boost and the clamp. */
  method ChannelSample(buf: seq<real>, i: nat, channels: nat, ch: nat, boost: real) returns (s: real)
    ensures s == Selected(buf, channels, ch, boost, i)
  {
    var idx := i * channels + ch;
    s := 0.0;
    if idx < |buf| {
      s := buf[idx];
    }
    s := s * boost;
    if s > 1.0 {
      s := 1.0;
    } else if s < -1.0 {
      s := -1.0;
    }
  }

  /** Frame i of the chunk is the pair taken from channels chL and chR of frame i. */
  lemma StereoChunkLayout(buf: seq<real>, bufferSize: nat, channels: nat, chL: nat, chR: nat, boost: real, i: nat)
    requires i < bufferSize
    ensures FrameAt(StereoChunk(buf, bufferSize, channels, chL, chR, boost), i,
                    Selected(buf, channels, chL, boost, i), Selected(buf, channels, chR, boost, i))
  {
    assert (2 * i) / 2 == i && (2 * i) % 2 == 0;
    assert (2 * i + 1) / 2 == i && (2 * i + 1) % 2 == 1;
  }

  /** Every frame of the chunk is laid out as StereoChunkLayout says, and every
      sample is within [-1, 1]. */
  lemma StereoChunkFrames(buf: seq<real>, bufferSize: nat, channels: nat, chL: nat, chR: nat, boost: real)
    ensures var c := StereoChunk(buf, bufferSize, channels, chL, chR, boost);
      && |c| == 2 * bufferSize && InUnitRange(c)
      && forall i | 0 <= i < bufferSize ::
           FrameAt(c, i, Selected(buf, channels, chL, boost, i), Selected(buf, channels, chR, boost, i))
  {
    forall i | 0 <= i < bufferSize
      ensures FrameAt(StereoChunk(buf, bufferSize, channels, chL, chR, boost), i,
                      Selected(buf, channels, chL, boost, i), Selected(buf, channels, chR, boost, i))
    {
      StereoChunkLayout(buf, bufferSize, channels, chL, chR, boost, i);
    }
  }

  /** The worked example: two frames of two channels, gain 2, left = channel 0
      and right = channel 1; the third product, -1.8, is clipped. */
  lemma TwoFrameExample()
    ensures StereoChunk([0.4, 0.1, -0.9, 0.2], 2, 2, 0, 1, 2.0) == [0.8, 0.2, -1.0, 0.4]
  {
    var c := StereoChunk([0.4, 0.1, -0.9, 0.2], 2, 2, 0, 1, 2.0);
    assert c[0] == Selected([0.4, 0.1, -0.9, 0.2], 2, 0, 2.0, 0);
    assert c[1] == Selected([0.4, 0.1, -0.9, 0.2], 2, 1, 2.0, 0);
    assert c[2] == Selected([0.4, 0.1, -0.9, 0.2], 2, 0, 2.0, 1);
    assert c[3] == Selected([0.4, 0.1, -0.9, 0.2], 2, 1, 2.0, 1);
  }

  datatype EngineError =
    | InvalidDevice      // deviceID >= len(devices): "invalid device"
    | DeviceIndexPanic   // a negative deviceID: devices[deviceID] panics

  /** What StartAudioEngine launches: a capture goroutine on `device` that
      watches `quit`. */
  datatype Launch = Launch(device: DeviceInfo, quit: QuitToken)

  /** StartAudioEngine: revokes the previous loop's quit token, installs a new
      one and sets IsRunning, all before the device id is checked; only a valid
      id launches a loop. */
  method StartAudioEngine(state: AppState, deviceID: int) returns (r: Result<Launch, EngineError>)
    modifies state`quitAudio, state`isRunning, state.quitAudio
    ensures old(state.quitAudio) != null ==> old(state.quitAudio).revoked
    ensures state.quitAudio != null && fresh(state.quitAudio) && !state.quitAudio.revoked
    ensures state.isRunning
    ensures deviceID >= |state.devices| ==> r == Failure(InvalidDevice)
    ensures deviceID < 0 ==> r == Failure(DeviceIndexPanic)
    ensures 0 <= deviceID < |state.devices| ==>
      r == Success(Launch(state.devices[deviceID], state.quitAudio))
  {
    if state.quitAudio != null {
      state.quitAudio.Revoke();
      state.quitAudio := null;
    }
    var quit := new QuitToken();
    state.quitAudio := quit;
    state.isRunning := true;

    var devices := state.devices;
    if deviceID >= |devices| {
      return Failure(InvalidDevice);
    }
    if deviceID < 0 {
      return Failure(DeviceIndexPanic);
    }
    r := Success(Launch(devices[deviceID], quit));
  }

  /** A running capture loop: everything it captured when it started. */
  datatype CaptureLoop = CaptureLoop(device: DeviceInfo, bufferSize: nat, chL: int, chR: int,
                                     boost: real, quit: QuitToken)

  /** The goroutine's prologue: when the stream opens, the channel pair and the
      boost are read from the state once (0 meaning 1) and kept for the loop's
      whole life; when it does not open, the goroutine ends and no loop runs. */
  function OpenCapture(state: AppState, launch: Launch, bufferSize: nat, streamOpened: bool)
    : (loop: Option<CaptureLoop>)
    reads state
    ensures loop.Some? <==> streamOpened
    ensures loop.Some? ==>
      && loop.value.device == launch.device && loop.value.quit == launch.quit
      && loop.value.chL == state.chLeft && loop.value.chR == state.chRight
      && loop.value.bufferSize == bufferSize
      && loop.value.boost != 0.0
      && (state.boost != 0.0 ==> loop.value.boost == state.boost)
      && (state.boost == 0.0 ==> loop.value.boost == 1.0)
  {
    if !streamOpened then None
    else Some(CaptureLoop(launch.device, bufferSize, state.chLeft, state.chRight,
                          EffectiveBoost(state.boost), launch.quit))
  }

  /** The outcome of one loop iteration. */
  datatype Iteration =
    | Quit                                            // quit was closed: the loop returns
    | ReadFailed                                      // stream.Read failed: continue
    | Produced(chunk: Chunk, recorded: bool, played: bool)

  /** One iteration of the capture loop. The quit token is checked first; a
      failed read (`read == None`) produces nothing; otherwise the chunk is built
      from the loop's captured settings (no AppState is consulted, so later
      updates cannot reach a running loop) and offered to each queue on its own:
      each takes it iff it has room, whatever the other one does. */
  method CaptureIteration(loop: CaptureLoop, read: Option<seq<real>>,
                          recordChan: ChunkQueue, playbackChan: ChunkQueue)
    returns (it: Iteration)
    requires recordChan != playbackChan && recordChan.Valid() && playbackChan.Valid()
    requires 0 <= loop.chL && 0 <= loop.chR && 0 <= loop.device.maxInputChannels
    modifies recordChan, playbackChan
    ensures recordChan.Valid() && playbackChan.Valid()
    ensures loop.quit.revoked ==> it == Quit
    ensures !loop.quit.revoked && read.None? ==> it == ReadFailed
    ensures it.Quit? || it.ReadFailed? ==>
      recordChan.items == old(recordChan.items) && playbackChan.items == old(playbackChan.items)
    ensures !loop.quit.revoked && read.Some? ==>
      && it.Produced?
      && it.chunk == StereoChunk(read.value, loop.bufferSize, loop.device.maxInputChannels,
                                 loop.chL, loop.chR, loop.boost)
    ensures it.Produced? ==>
      && |it.chunk| == 2 * loop.bufferSize && InUnitRange(it.chunk)
      && (it.recorded <==> |old(recordChan.items)| < recordChan.capacity)
      && recordChan.items == (if it.recorded then old(recordChan.items) + [it.chunk] else old(recordChan.items))
      && (it.played <==> |old(playbackChan.items)| < playbackChan.capacity)
      && playbackChan.items == (if it.played then old(playbackChan.items) + [it.chunk] else old(playbackChan.items))
  {
    if loop.quit.revoked {
      return Quit;
    }
    if read.None? {
      return ReadFailed;
    }
    var stereoChunk := ExtractStereo(read.value, loop.bufferSize, loop.device.maxInputChannels,
                                     loop.chL, loop.chR, loop.boost);
    var recorded := recordChan.TrySend(stereoChunk);
    var played := playbackChan.TrySend(stereoChunk);
    it := Produced(stereoChunk, recorded, played);
  }
}
