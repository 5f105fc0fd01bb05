# RemotePortAudioRecorder back end, modelled in Dafny

This project models the Go back end of RemotePortAudioRecorder, a recorder
driven from a browser. It covers:

- **Capture.** The capture loop reads interleaved multi-channel buffers from
  an audio device. For each frame it picks a left and a right input channel,
  applies a boost and clamps to [-1, 1]. It then offers the stereo chunk to
  two bounded queues (capacity 100) without blocking.
- **Storage.** The storage worker turns each chunk into little-endian 16-bit
  PCM appended to the open WAV file, and counts the stereo frames written.
- **WAV header.** The header code writes a 44-byte zero placeholder when
  recording starts. When recording stops it overwrites those bytes with the
  RIFF/WAVE PCM header (RIFF descriptor, `fmt ` chunk, `data` chunk header).
- **Broadcast.** The broadcaster computes per-channel peak meters and builds
  the monitor packet `[peakL][peakR][samples…]` of little-endian float32
  words. It sends the same packet to every websocket client; a failed send
  closes that client's connection.
- **Client registry.** The websocket registry tracks the connected clients
  and the single primary client, through three events: connect, disconnect
  and `requestPrimary`. Each client's state message carries an `isPrimary`
  flag.
- **Control handler.** The handler implements the `connect`, `start`, `stop`
  and `update` actions.
- **Device list.** The list offered to the UI keeps each input-capable device
  and tags it with its index.

## How the model is built

Each worker step and each handler runs as one atomic sequential operation.
The shared `AppState` is a class whose fields the operations update. The
two Go channels are `ChunkQueue` objects: bounded FIFO sequences with a
non-blocking send. An `*os.File` is a `WavFile` object holding the file's
bytes, its offset and whether it is closed. A write overwrites bytes at the
offset and extends the file past its end. A write to a closed file changes
nothing, and a nil file is a no-op, as in Go.

Each imperative operation is a method proved against a pure function:

| Operation | Specified by |
|---|---|
| channel extraction | `StereoChunk` |
| header | `HeaderBytes` |
| PCM | `PcmBytes` |
| packet | `PacketBytes` |
| peaks | `Peak` of each `Channel` |
| device list | `InputDevices` |
| registry events | `Connect` / `Disconnect` / `RequestPrimary` over a `Registry` value |

Properties relating several calls are lemmas:

- header round trip and exact size fields;
- PCM round trip;
- packet round trip against the browser's decoding;
- registry invariants over any run of events;
- exactly one `isPrimary`.

Integer widths are written out:

- `uint32(…)` and `uint16(…)` in the header are reductions modulo 2^32 and
  2^16.
- `int16(x*32767)` truncates toward zero.

Samples are `real`. `math.Float32bits` is a parameter `bits: real -> uint32`
of the operations that use it.

Four behaviours of the code worth noting:

- The capture loop reads the channel pair and the boost once, when the
  stream opens (lib/portaudio/engine.go:60-64), not on every iteration. A
  running loop never consults `AppState` again.
- `StartAudioEngine` revokes the old quit token, installs a new one and sets
  `IsRunning` before it checks the device id (lib/portaudio/engine.go:14-29).
  A `connect` with an invalid device therefore leaves `IsRunning` true and no
  capture loop running. `Control.ControlConnect` states this.
- The record type in lib/types/types.go is not the one the handlers use.
  It has no `File`, `PrimaryClient`, `DeviceID` or `Devices` fields, and keys
  `Clients` by connection. The model's `AppState` has the fields that
  lib/web/server.go and lib/portaudio/engine.go read and write.
- A client whose monitor send fails is closed but stays registered
  (lib/web/playback.go:88-92); the registry drops it only at the disconnect
  that its read loop reports later. `Playback.BroadcastAudio` keeps it
  registered, so "no closed connection is registered" holds after the three
  registry events but not between a failed send and that disconnect.

The storage worker's doc comment (lib/portaudio/storage.go:29-31) gives
16384, -9831, 3277 and 6554 for the chunk [0.5, -0.3, 0.1, 0.2]. The
conversion at line 41 truncates, giving 16383, -9830, 3276 and 6553
(`Storage.DocExampleTruncates`). The comment calls its values approximate.

## Model

| member | source | states |
|---|---|---|
| LittleEndian.LeRoundTrip | lib/web/playback.go:78-83 | reading back, low byte first, the n bytes written for a value below 256^n gives the value |
| LittleEndian.PutUint16 | lib/portaudio/wav.go:58-63 | the two bytes of a uint16, low byte first, decode back to the value |
| LittleEndian.PutUint32 | lib/web/playback.go:78-83 | the four bytes of a uint32, low byte first, decode back to the value |
| LittleEndian.PutInt16 | lib/portaudio/storage.go:43-44 | an int16 in two's complement, low byte first, decodes back to the value |
| Engine.Clamp | lib/portaudio/engine.go:106-115 | the result lies in [-1, 1], and an in-range value is unchanged |
| Engine.ClampIsNearest | lib/portaudio/engine.go:106-115 | the clamped value is the closest point of [-1, 1] to the input |
| Engine.EffectiveBoost | lib/portaudio/engine.go:61-64 | the boost in use is never 0: a stored 0 gives exactly 1.0, any other value is kept |
| Engine.ChannelSample | lib/portaudio/engine.go:87-115 | sample i of channel ch is the input at offset i*channels+ch, or silence past the buffer's end, boosted and clamped |
| Engine.ExtractStereo | lib/portaudio/engine.go:82-119 | the chunk has 2*bufferSize samples; frame i's left sample is at 2i and its right at 2i+1; every sample is in [-1, 1]; the chunk equals StereoChunk |
| Engine.StereoChunk | lib/portaudio/engine.go:82-119 | the chunk built from one device buffer has 2*bufferSize samples, every one in [-1, 1] |
| Engine.StereoChunkLayout | lib/portaudio/engine.go:117-118 | position 2i holds frame i of the left channel and 2i+1 frame i of the right |
| Engine.StereoChunkFrames | lib/portaudio/engine.go:82-118 | every frame of StereoChunk is the boosted and clamped pair, and every sample is in [-1, 1] |
| Engine.TwoFrameExample | lib/portaudio/engine.go:82-118 | two frames boosted by 2 give [0.8, 0.2, -1.0, 0.4], the third value clamped |
| Engine.StartAudioEngine | lib/portaudio/engine.go:13-30 | the previous quit token is revoked, a fresh one installed and IsRunning set before the id check; an id past the list is "invalid device", a negative id panics, and otherwise the chosen device is launched with the new token |
| Engine.OpenCapture | lib/portaudio/engine.go:47-64 | a loop runs iff the stream opens, and it keeps the device, the token, the buffer size, the channel pair read at that moment, and the boost read then with a stored 0 replaced by 1.0 |
| Engine.CaptureIteration | lib/portaudio/engine.go:66-129 | quit is checked first; a failed read offers nothing; otherwise the chunk is StereoChunk of the read buffer, and each queue takes it iff it has room, independently of the other |
| State.QuitToken.Revoke | lib/portaudio/engine.go:15-17 | closing the quit channel: the token is revoked |
| State.ChunkQueue.TrySend | lib/portaudio/engine.go:122-129 | a send succeeds iff the queue is below capacity, and then appends the chunk; otherwise the queue is unchanged; the queue never holds more than its capacity |
| State.ChunkQueue.Receive | lib/portaudio/storage.go:34 | chunks leave in the order they were sent |
| State.AppState.constructor | main.go:45-54 | the initial state: no clients, not running, not recording, the configured channels and boost, two distinct empty queues of capacity 100 |
| Storage.Pcm16 | lib/portaudio/storage.go:41 | for a sample in [-1, 1], the value is s*32767 truncated toward zero and lies in [-32767, 32767] |
| Storage.DocExampleTruncates | lib/portaudio/storage.go:29-31 | the example chunk converts to 16383, -9830, 3276 and 6553 |
| Storage.PcmBytes | lib/portaudio/storage.go:38-45 | a chunk becomes two bytes per sample |
| Storage.PcmBytesAt | lib/portaudio/storage.go:41-44 | sample k occupies bytes 2k and 2k+1, as the little-endian int16 of its conversion |
| Storage.PcmRoundTrip | lib/portaudio/storage.go:38-45 | decoding the written bytes as little-endian int16s gives back the converted samples in chunk order |
| Storage.WritePair | lib/portaudio/storage.go:38-44 | one pass of the loop writes the pair at i and i+1: an open file then holds PcmBytes of the first i+2 samples at the start offset, a closed or nil file is unchanged |
| Storage.WriteInt16 | lib/portaudio/storage.go:43-44 | one binary.Write of an int16 writes its two bytes at the offset of an open file; a closed or nil file is unchanged |
| Storage.StorageStep | lib/portaudio/storage.go:36-48 | when not recording nothing changes; when recording the file becomes the old file with PcmBytes(chunk) written at its offset, SamplesWrote grows by len(chunk)/2, and a consistent recording stays consistent (4 bytes per frame after the 44-byte header) |
| Wav.Overwrite | lib/portaudio/wav.go:52-65 | a write at an offset replaces exactly the bytes it covers and keeps everything before and after |
| Wav.OverwriteTwice | lib/portaudio/wav.go:52-65 | two consecutive writes equal one write of their concatenation |
| Wav.WavFile.Create | lib/web/server.go:103 | os.Create gives an open, empty file at offset 0 |
| Wav.WavFile.Seek | lib/portaudio/wav.go:52 | an open file's offset moves to the target and its bytes are kept; a closed file is unchanged |
| Wav.WavFile.Close | lib/portaudio/wav.go:66 | the file is closed, its bytes and offset kept |
| Wav.WavFile.Write | lib/portaudio/wav.go:53 | an open file gets the bytes written at its offset and the offset advances; a closed file is unchanged |
| Wav.HeaderBytes | lib/portaudio/wav.go:35-65 | the header is exactly 44 bytes |
| Wav.HeaderRoundTrip | lib/portaudio/wav.go:52-65 | parsing the header gives "RIFF"/"WAVE"/"fmt "/"data", RIFF size (36+dataSize) mod 2^32, format 1, the channels, the sample rate mod 2^32, byteRate, blockAlign, 16 bits and dataSize |
| Wav.SizesExact | lib/portaudio/wav.go:30-32 | DataSize, ByteRate and BlockAlign are exactly s*ch*2, sampleRate*ch*2 and ch*2 when these fit 32 and 16 bits, and 36 + dataSize does not wrap |
| Wav.HeaderFieldsExact | lib/portaudio/wav.go:30-65 | when the sizes fit their widths, the parsed fields are exactly s*ch*2, sampleRate*ch*2 and ch*2, byteRate = sampleRate*blockAlign and riffSize = 36+dataSize |
| Wav.ParseHeaderIgnoresAudio | lib/portaudio/wav.go:51 | the header is read from the first 44 bytes alone |
| Wav.FinalizeKeepsAudio | lib/portaudio/wav.go:52-65 | finalizing replaces bytes 0..43 and keeps every byte from offset 44 on |
| Wav.FinalizedHeader | lib/portaudio/wav.go:24-65 | a finalized file keeps its length and its audio, and parses as exactly the header FinalizeWavHeader computed |
| Wav.FinalizedFields | lib/portaudio/wav.go:24-65 | a file finalized for n frames of ch channels reads back ch channels, data size DataSize(ch, n) and RIFF size 36 + that, modulo 2^32 |
| Wav.FinalizedFileConsistent | lib/portaudio/wav.go:28-39 | a file of 44 + 2*ch*n bytes whose header carries the sizes for n frames is consistent: its data size is its length less 44 and its RIFF size its length less 8, modulo 2^32 |
| Wav.FinalizedStereoConsistent | lib/portaudio/wav.go:24-65 | a stereo recording of 44 + 4n bytes finalized with n frames keeps its audio and is consistent in that sense |
| Wav.WritePlaceholderHeader | lib/portaudio/wav.go:16-22 | an open file gets 44 zero bytes at offset 0 and its offset ends at 44; a nil or closed file is unchanged |
| Wav.FinalizeWavHeader | lib/portaudio/wav.go:24-67 | an open file becomes the old file with HeaderBytes laid over its front, and the file is closed; a nil file is untouched |
| Detect.InputDevices | lib/portaudio/detect.go:9-21 | the list is no longer than the input, and every entry has inputs and an id within the input |
| Detect.InputDevicesCorrect | lib/portaudio/detect.go:9-21 | every entry has inputs and describes the device at its index, ids strictly increase, every input-capable device is listed, and the list is no longer than the input |
| Detect.GetDevices | lib/portaudio/detect.go:9-21 | the loop returns InputDevices(devices), with all the properties above |
| Playback.Peak | lib/web/playback.go:24-35 | the running maximum is never negative, and is 0 for no samples |
| Playback.PeakIsMaximum | lib/web/playback.go:24-35 | the peak is at least 0, 0 for no samples, bounds every sample's magnitude, and is attained by some sample |
| Playback.CalculatePeakMeters | lib/web/playback.go:23-36 | maxL and maxR are the peaks of the left (even) and right (odd) samples: non-negative, 0 for an empty buffer, bounding every sample of their channel and attained by one |
| Playback.PeakStep | lib/web/playback.go:25-33 | each pass of the loop extends each channel's running maximum by one sample |
| Playback.PacketBytes | lib/web/playback.go:74-84 | the packet is 8 + 4N bytes |
| Playback.SampleBytesAt | lib/web/playback.go:82-84 | sample i's bit pattern occupies bytes 4i..4i+3 of the audio part |
| Playback.PacketWordAt | lib/web/playback.go:83 | sample i's bit pattern occupies bytes 8+4i..8+4i+3 of the packet |
| Playback.PacketRoundTrip | lib/web/playback.go:41-61 | the browser's reading of the packet (peaks at 0 and 4, samples from 8) gives back the two peaks and every sample, in order |
| Playback.BuildPacket | lib/web/playback.go:73-84 | the buffer filled in place holds maxL's bits at 0..3, maxR's at 4..7 and equals PacketBytes |
| Playback.MonitorChannelsRoundTrip | frontend/src/lib/audioVisuals.svelte.ts:59-67 | the browser's split of the decoded words into even (left) and odd (right) positions gives, for each channel of the chunk that was sent, that channel's bit patterns in frame order |
| Playback.WritePeaks | lib/web/playback.go:78-79 | the first eight bytes of the packet buffer are maxL's word then maxR's, little-endian, and every later byte is unchanged |
| Playback.WriteSampleWord | lib/web/playback.go:82-84 | one pass of the loop extends the written prefix by sample i's word at 8+4i, and every byte after it is unchanged |
| Playback.PutUint32At | lib/web/playback.go:78 | four bytes at the offset are replaced by the word and nothing else changes |
| Playback.BroadcastAudio | lib/web/playback.go:64-94 | with no client no packet is built; otherwise the same packet goes to every client, the clients whose send fails are closed, a connection closed earlier receives nothing, and no client is removed |
| ClientRegistry.Connect | lib/web/server.go:289-300 | the client is added; it becomes primary when there was none or it is now the only client (even over a stale primary), and a primary with other clients keeps its place |
| ClientRegistry.Disconnect | lib/web/server.go:312-342 | the client is removed and closed; if it was primary, a remaining client (in map order) takes over or nobody when none remain; a secondary leaving changes no primary |
| ClientRegistry.RequestPrimary | lib/web/server.go:359-371 | the requester becomes primary; a different old primary is closed and removed; otherwise the client set is unchanged |
| ClientRegistry.StepKeepsInvariants | lib/web/server.go:289-371 | each event keeps "no primary iff no client, the primary is a client" and "no closed connection is registered" |
| ClientRegistry.RunKeepsInvariants | lib/web/server.go:289-371 | both invariants hold after any sequence of the three registry events; a client that BroadcastAudio closed stays registered until its read loop's disconnect, so "no closed connection is registered" is a property of the registry events alone |
| ClientRegistry.ExactlyOnePrimary | lib/web/server.go:401 | in a consistent registry exactly one client is flagged primary when any is connected |
| ClientRegistry.ExactlyOnePrimaryAfterAnyRun | lib/web/server.go:289-401 | from the initial empty registry, every run leaves exactly one primary among the connected clients, or none when nobody is connected |
| ClientRegistry.BroadcastStateUpdate | lib/web/server.go:384-424 | a send of the current state is attempted to every registered client (one closed by a failed audio send gets nothing), and isPrimary is true for the primary client alone |
| ClientRegistry.ClientConnected | lib/web/server.go:287-304 | the shared state's registry becomes Connect of the old one, and every client is sent the new state |
| ClientRegistry.ClientDisconnected | lib/web/server.go:311-345 | the registry becomes Disconnect of the old one for the client the map iteration yields |
| ClientRegistry.PrimaryRequested | lib/web/server.go:357-375 | the registry becomes RequestPrimary of the old one |
| Control.ControlConnect | lib/web/server.go:64-87 | the engine is restarted first; an invalid device is a 500 and a negative id aborts, both leaving device, channels and boost unchanged; otherwise the device id and the supplied channels and boost are stored and everyone is notified |
| Control.ControlStart | lib/web/server.go:89-122 | refused with 400 while recording and 500 when the file cannot be created, without change; otherwise a fresh file holding the 44-byte placeholder, SamplesWrote 0, recording, boost set only if given, and a consistent recording |
| Control.ControlStop | lib/web/server.go:124-156 | 400 when not recording, 500 with no file; otherwise the file is finalized for 2 channels and SamplesWrote frames and closed, File is cleared and recording ends; a consistent recording yields a file whose header sizes match its length and whose audio is intact |
| Control.ControlUpdate | lib/web/server.go:158-173 | ignored while recording; otherwise only the supplied channels and boost change |
| Control.HandleControl | lib/web/server.go:43-175 | an undecodable body is a 400 and an unknown action is an empty 200, both changing nothing; connect, start, stop and update each have the effect and response of their operation above and leave the other fields alone; a valid connect launches the capture loop on devices[deviceId] with the new quit token, and no other request launches one; every request keeps a consistent recording consistent |

## Left out

- Goroutines, the read-write mutex, blocking channel receives, closing the
  quit channel and the 100 ms sleep: each worker step and handler is one
  atomic sequential operation. A closed quit channel is a revoked token.
- Races that depend on interleaving are not modelled. Examples: stop reads
  the file, finalizes it and clears it under separate lock sections; a
  running loop reads the channels while connect updates them; a
  `requestPrimary` can arrive from a connection that another client has just
  displaced; `broadcastStateUpdate` takes the read lock recursively.
- PortAudio: opening, starting and reading the stream are parameters. A
  stream that opened or not is `streamOpened`, and a read that failed or
  succeeded is `read: Option<seq<real>>`.
- Websocket I/O: the upgrade, write deadlines, `WriteMessage`, JSON
  encoding of state messages and parsing of `requestPrimary`. Clients are
  ids. The sends that fail are a parameter set. A state message is a
  datatype; its storage locations come from the configuration and are not
  part of it.
- HTTP glue and file creation: `GetLocalIP`, `DevicesHandler`,
  `NewStatusHandler` (a plain field snapshot), `FilesHandler`, `PushHandler`,
  the request body's JSON decoding, the recording folder, and the
  clock-based file name. Whether `os.Create` succeeds is the parameter
  `createOk`.
- main.go and lib/config/config.go are wiring. Only the queue capacity of
  100 and the initial state are kept.
- Floating point: samples, boost and peaks are reals. float32 rounding of
  the product and the conversion are not modelled.
- math.Float32bits is a parameter, so the packet's words are bit patterns
  that are never interpreted.
- The frontend files are not part of this model. The exception is their
  packet reading (frontend/src/lib/audioVisuals.svelte.ts:22-23, 59), which
  `Playback.DecodePacket` mirrors, and the split of the samples into two
  channels (lines 60-67), which `Playback.Channel` mirrors. Meter scaling to
  dB and audio scheduling are left out.
- Engine.CaptureIteration: requires non-negative channel indexes. Go would
  panic on a negative index into the input buffer, and the model does not
  represent that panic.
- Storage.StorageStep: requires every sample in [-1, 1]. The capture loop
  clamps every sample, and Go's conversion of an out-of-range float to
  int16 is implementation-defined.
- Storage.StorageStep: `SamplesWrote` is an unbounded integer, so its int64
  overflow is not modelled.
- ClientRegistry.ClientConnected: the state message that lib/web/server.go:303
  sends to the new client alone, before the broadcast, is not modelled. It
  carries the same state that the broadcast then sends to every client.
- Control.ControlConnect: a negative device id is the `Aborted` response.
  Go's HTTP server recovers the index panic and drops the connection. The
  state changes that StartAudioEngine made before the panic remain.
