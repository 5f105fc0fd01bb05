/**
 * The control handler of lib/web/server.go: the connect / start / stop /
 * update actions on the shared state. Each applied action ends by sending
 * the new state to every client; that broadcast is the Applied response.
 */
module Control {
  import opened Types
  import opened State
  import Wav
  import Engine
  import opened ClientRegistry

  /** A decoded request body; the optional fields a client omits are None. */
  datatype Request = Request(action: string, deviceId: int, chL: Option<int>, chR: Option<int>,
                             folder: string, boost: Option<real>)

  datatype Response =
    | Applied(notified: map<ClientId, StateMessage>)   // 200; every client was sent the new state
    | NoAction                                       // 200 with an empty body
    | Rejected(status: nat, message: string)         // http.Error
    | Aborted                                        // the handler panicked

  function OrKeep(update: Option<int>, current: int): int
  {
    if update.Some? then update.value else current
  }

  function OrKeepReal(update: Option<real>, current: real): real
  {
    if update.Some? then update.value else current
  }

  /** "connect": the engine is (re)started first; an invalid device is a 500,
      a negative id panics inside the engine. On success the device id and the
      supplied channel and boost settings are stored. */
  method ControlConnect(state: AppState, req: Request) returns (resp: Response, launch: Option<Engine.Launch>)
    modifies state`quitAudio, state`isRunning, state.quitAudio
    modifies state`deviceID, state`chLeft, state`chRight, state`boost
    ensures old(state.quitAudio) != null ==> old(state.quitAudio).revoked
    ensures state.quitAudio != null && fresh(state.quitAudio) && !state.quitAudio.revoked
    ensures state.isRunning
    ensures req.deviceId >= |state.devices| ==>
      && resp == Rejected(500, "invalid device") && launch == None
      && state.deviceID == old(state.deviceID) && state.chLeft == old(state.chLeft)
      && state.chRight == old(state.chRight) && state.boost == old(state.boost)
    ensures req.deviceId < 0 ==>
      && resp == Aborted && launch == None
      && state.deviceID == old(state.deviceID) && state.chLeft == old(state.chLeft)
      && state.chRight == old(state.chRight) && state.boost == old(state.boost)
    ensures 0 <= req.deviceId < |state.devices| ==>
      && launch == Some(Engine.Launch(state.devices[req.deviceId], state.quitAudio))
      && state.deviceID == req.deviceId
      && state.chLeft == OrKeep(req.chL, old(state.chLeft))
      && state.chRight == OrKeep(req.chR, old(state.chRight))
      && state.boost == OrKeepReal(req.boost, old(state.boost))
      && resp == Applied(BroadcastStateUpdate(state))
  {
    var r := Engine.StartAudioEngine(state, req.deviceId);
    if r.Failure? {
      launch := None;
      match r.error {
        case InvalidDevice =>
          resp := Rejected(500, "invalid device");
        case DeviceIndexPanic =>
          resp := Aborted;
      }
      return;
    }
    launch := Some(r.value);
    state.isRunning := true;
    state.deviceID := req.deviceId;
    if req.chL.Some? {
      state.chLeft := req.chL.value;
    }
    if req.chR.Some? {
      state.chRight := req.chR.value;
    }
    if req.boost.Some? {
      state.boost := req.boost.value;
    }
    resp := Applied(BroadcastStateUpdate(state));
  }

  /** "start": refused while recording; otherwise a new file (unless os.Create
      fails, `createOk` false) gets the 44-byte placeholder header and recording
      begins from zero samples. */
  method ControlStart(state: AppState, req: Request, createOk: bool) returns (resp: Response)
    modifies state`file, state`samplesWrote, state`isRecording, state`boost
    ensures old(state.isRecording) ==>
      && resp == Rejected(400, "Already recording")
      && state.file == old(state.file) && state.samplesWrote == old(state.samplesWrote)
      && state.isRecording && state.boost == old(state.boost)
    ensures !old(state.isRecording) && !createOk ==>
      && resp == Rejected(500, "Failed to create file")
      && state.file == old(state.file) && state.samplesWrote == old(state.samplesWrote)
      && !state.isRecording && state.boost == old(state.boost)
    ensures !old(state.isRecording) && createOk ==>
      && state.file != null && fresh(state.file)
      && state.file.data == seq(Wav.HeaderSize, _ => 0) && state.file.pos == Wav.HeaderSize
      && !state.file.closed
      && state.samplesWrote == 0 && state.isRecording
      && state.boost == OrKeepReal(req.boost, old(state.boost))
      && state.RecordingConsistent()
      && resp == Applied(BroadcastStateUpdate(state))
  {
    if state.isRecording {
      return Rejected(400, "Already recording");
    }
    if !createOk {
      return Rejected(500, "Failed to create file");
    }
    var file := new Wav.WavFile.Create();
    Wav.WritePlaceholderHeader(file);
    Wav.OverwriteAtEnd([], seq(Wav.HeaderSize, _ => 0));
    state.file := file;
    state.samplesWrote := 0;
    state.isRecording := true;
    if req.boost.Some? {
      state.boost := req.boost.value;
    }
    resp := Applied(BroadcastStateUpdate(state));
  }

  /** "stop": refused when not recording, a 500 when there is no file; otherwise
      the header is finalized for a stereo recording of samplesWrote frames, the
      file is closed and recording ends. `finished` is the file that was stopped.
      When the recording was consistent, the stopped file keeps every audio byte
      and its header sizes agree with its length. */
  method ControlStop(state: AppState, sampleRate: int) returns (resp: Response, finished: Wav.WavFile?)
    requires state.file != null ==> state.file.Valid()
    modifies state`file, state`isRecording, state.file
    ensures !old(state.isRecording) ==>
      && resp == Rejected(400, "Not currently recording") && finished == null
      && state.file == old(state.file) && !state.isRecording
      && (state.file != null ==> unchanged(state.file))
    ensures old(state.isRecording) && old(state.file) == null ==>
      && resp == Rejected(500, "No file to finalize") && finished == null
      && state.file == null && state.isRecording
    ensures old(state.isRecording) && old(state.file) != null ==>
      && finished == old(state.file) && finished.Valid() && finished.closed
      && (old(state.file.closed) ==> finished.data == old(state.file.data))
      && (!old(state.file.closed) ==>
            finished.data == Wav.Overwrite(old(state.file.data), 0,
                                           Wav.HeaderBytes(2, state.samplesWrote, sampleRate)))
      && state.file == null && !state.isRecording
      && resp == Applied(BroadcastStateUpdate(state))
    ensures old(state.isRecording) && old(state.RecordingConsistent()) ==>
      && finished != null
      && finished.data[Wav.HeaderSize..] == old(state.file.data)[Wav.HeaderSize..]
      && Wav.ConsistentWav(finished.data, 2)
  {
    if !state.isRecording {
      return Rejected(400, "Not currently recording"), null;
    }
    var file := state.file;
    var samplesWrote := state.samplesWrote;
    if file == null {
      return Rejected(500, "No file to finalize"), null;
    }
    ghost var consistent := state.RecordingConsistent();
    ghost var d0 := file.data;
    Wav.FinalizeWavHeader(file, 2, samplesWrote, sampleRate);
    file.Close();
    if consistent {
      Wav.FinalizedStereoConsistent(d0, samplesWrote, sampleRate, file.data);
    }
    state.file := null;
    state.isRecording := false;
    finished := file;
    resp := Applied(BroadcastStateUpdate(state));
  }

  /** "update": ignored while recording; otherwise the supplied channel and
      boost settings replace the stored ones. */
  method ControlUpdate(state: AppState, req: Request) returns (resp: Response)
    modifies state`chLeft, state`chRight, state`boost
    ensures old(state.isRecording) ==>
      && resp == NoAction && state.chLeft == old(state.chLeft)
      && state.chRight == old(state.chRight) && state.boost == old(state.boost)
    ensures !old(state.isRecording) ==>
      && state.chLeft == OrKeep(req.chL, old(state.chLeft))
      && state.chRight == OrKeep(req.chR, old(state.chRight))
      && state.boost == OrKeepReal(req.boost, old(state.boost))
      && resp == Applied(BroadcastStateUpdate(state))
  {
    if state.isRecording {
      return NoAction;
    }
    if req.chL.Some? {
      state.chLeft := req.chL.value;
    }
    if req.chR.Some? {
      state.chRight := req.chR.value;
    }
    if req.boost.Some? {
      state.boost := req.boost.value;
    }
    resp := Applied(BroadcastStateUpdate(state));
  }

  /** The body decoded and carrying the given action. */
  predicate IsAction(body: Option<Request>, action: string)
  {
    body.Some? && body.value.action == action
  }

  /** The handler: an undecodable body is a 400, the action selects the
      operation and an unknown action does nothing. `createOk` is whether
      os.Create succeeds. Each action has the effect of its operation above,
      and touches nothing the other actions own; `launch` is the capture loop a
      connect starts. Whatever the request, a consistent recording state stays
      consistent. */
  method HandleControl(state: AppState, body: Option<Request>, createOk: bool, sampleRate: int)
    returns (resp: Response, launch: Option<Engine.Launch>)
    requires state.file != null ==> state.file.Valid()
    modifies state`quitAudio, state`isRunning, state.quitAudio
    modifies state`deviceID, state`chLeft, state`chRight, state`boost
    modifies state`file, state`samplesWrote, state`isRecording, state.file
    ensures body.None? ==> resp == Rejected(400, "Invalid request body")
    ensures !IsAction(body, "connect") ==> launch == None
    ensures IsAction(body, "connect") ==>
      && state.quitAudio != null
      && if 0 <= body.value.deviceId < |state.devices|
         then launch == Some(Engine.Launch(state.devices[body.value.deviceId], state.quitAudio))
         else launch == None
    ensures body.Some? && body.value.action !in {"connect", "start", "stop", "update"} ==>
      resp == NoAction
    ensures body.None? || body.value.action !in {"connect", "start", "stop", "update"} ==>
      && unchanged(state)
      && (old(state.file) != null ==> unchanged(old(state.file)))
      && (old(state.quitAudio) != null ==> unchanged(old(state.quitAudio)))
    ensures IsAction(body, "connect") ==>
      && (old(state.quitAudio) != null ==> old(state.quitAudio).revoked)
      && state.quitAudio != null && fresh(state.quitAudio) && !state.quitAudio.revoked
      && state.isRunning
      && state.file == old(state.file) && state.isRecording == old(state.isRecording)
      && state.samplesWrote == old(state.samplesWrote)
      && (old(state.file) != null ==> unchanged(old(state.file)))
      && (body.value.deviceId >= |state.devices| ==> resp == Rejected(500, "invalid device"))
      && (body.value.deviceId < 0 ==> resp == Aborted)
      && (0 <= body.value.deviceId < |state.devices| ==>
            && state.deviceID == body.value.deviceId
            && state.chLeft == OrKeep(body.value.chL, old(state.chLeft))
            && state.chRight == OrKeep(body.value.chR, old(state.chRight))
            && state.boost == OrKeepReal(body.value.boost, old(state.boost))
            && resp == Applied(BroadcastStateUpdate(state)))
    ensures IsAction(body, "start") ==>
      && state.quitAudio == old(state.quitAudio) && state.isRunning == old(state.isRunning)
      && (old(state.quitAudio) != null ==> unchanged(old(state.quitAudio)))
      && state.deviceID == old(state.deviceID)
      && state.chLeft == old(state.chLeft) && state.chRight == old(state.chRight)
      && (old(state.file) != null ==> unchanged(old(state.file)))
      && (old(state.isRecording) ==>
            && resp == Rejected(400, "Already recording") && state.file == old(state.file) && state.isRecording
            && state.samplesWrote == old(state.samplesWrote) && state.boost == old(state.boost))
      && (!old(state.isRecording) && !createOk ==>
            && resp == Rejected(500, "Failed to create file") && state.file == old(state.file) && !state.isRecording
            && state.samplesWrote == old(state.samplesWrote) && state.boost == old(state.boost))
      && (!old(state.isRecording) && createOk ==>
            && state.file != null && fresh(state.file)
            && state.file.data == seq(Wav.HeaderSize, _ => 0) && state.file.pos == Wav.HeaderSize
            && state.samplesWrote == 0 && state.isRecording
            && state.boost == OrKeepReal(body.value.boost, old(state.boost))
            && resp == Applied(BroadcastStateUpdate(state)))
    ensures IsAction(body, "stop") ==>
      && state.quitAudio == old(state.quitAudio) && state.isRunning == old(state.isRunning)
      && (old(state.quitAudio) != null ==> unchanged(old(state.quitAudio)))
      && state.deviceID == old(state.deviceID) && state.boost == old(state.boost)
      && state.chLeft == old(state.chLeft) && state.chRight == old(state.chRight)
      && state.samplesWrote == old(state.samplesWrote)
      && (!old(state.isRecording) ==>
            && resp == Rejected(400, "Not currently recording") && state.file == old(state.file)
            && !state.isRecording && (state.file != null ==> unchanged(state.file)))
      && (old(state.isRecording) && old(state.file) == null ==>
            resp == Rejected(500, "No file to finalize") && state.file == null && state.isRecording)
      && (old(state.isRecording) && old(state.file) != null ==>
            && old(state.file).closed && state.file == null && !state.isRecording
            && (!old(state.file.closed) ==>
                  old(state.file).data == Wav.Overwrite(old(state.file.data), 0,
                                                        Wav.HeaderBytes(2, state.samplesWrote, sampleRate)))
            && resp == Applied(BroadcastStateUpdate(state)))
      && (old(state.isRecording) && old(state.RecordingConsistent()) ==>
            && old(state.file) != null
            && old(state.file).data[Wav.HeaderSize..] == old(state.file.data)[Wav.HeaderSize..]
            && Wav.ConsistentWav(old(state.file).data, 2))
    ensures IsAction(body, "update") ==>
      && state.quitAudio == old(state.quitAudio) && state.isRunning == old(state.isRunning)
      && (old(state.quitAudio) != null ==> unchanged(old(state.quitAudio)))
      && state.deviceID == old(state.deviceID) && state.file == old(state.file)
      && state.isRecording == old(state.isRecording) && state.samplesWrote == old(state.samplesWrote)
      && (old(state.file) != null ==> unchanged(old(state.file)))
      && (old(state.isRecording) ==> resp == NoAction && unchanged(state))
      && (!old(state.isRecording) ==>
            && state.chLeft == OrKeep(body.value.chL, old(state.chLeft))
            && state.chRight == OrKeep(body.value.chR, old(state.chRight))
            && state.boost == OrKeepReal(body.value.boost, old(state.boost))
            && resp == Applied(BroadcastStateUpdate(state)))
    ensures state.file != null ==> state.file.Valid()
    ensures old(state.RecordingConsistent()) ==> state.RecordingConsistent()
  {
    if body.None? {
      return Rejected(400, "Invalid request body"), None;
    }
    var req := body.value;
    launch := None;
    if req.action == "connect" {
      resp, launch := ControlConnect(state, req);
    } else if req.action == "start" {
      resp := ControlStart(state, req, createOk);
    } else if req.action == "stop" {
      var finished;
      resp, finished := ControlStop(state, sampleRate);
    } else if req.action == "update" {
      resp := ControlUpdate(state, req);
    } else {
      resp := NoAction;
    }
  }
}
