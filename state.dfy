/**
 * The shared application state (the AppState struct as the engine and the web
 * handlers use it), the revocable quit token of a capture loop and the bounded
 * channels between the engine and its two workers.
 */
module State {
  import opened Types
  import Wav

  /** The quit channel of one capture loop; closing it is `revoked := true`. */
  class QuitToken {
    var revoked: bool

    constructor ()
      ensures !revoked
    {
      revoked := false;
    }

    /** close(quit). */
    method Revoke()
      modifies this
      ensures revoked
    {
      revoked := true;
    }
  }

  /** A buffered Go channel of chunks: FIFO, at most `capacity` waiting. */
  class ChunkQueue {
    var items: seq<Chunk>
    const capacity: nat

    /** The channel's buffer bound: never more than `capacity` chunks wait. */
    ghost predicate Valid()
      reads this
    {
      |items| <= capacity
    }

    constructor (capacity: nat)
      ensures Valid()
      ensures items == [] && this.capacity == capacity
    {
      items := [];
      this.capacity := capacity;
    }

    /** select { case q <- c: default: }: the chunk is queued iff there is room,
        and otherwise dropped without waiting. */
    method TrySend(c: Chunk) returns (sent: bool)
      requires Valid()
      modifies this
      ensures Valid()
      ensures sent <==> |old(items)| < capacity
      ensures items == if sent then old(items) + [c] else old(items)
    {
      sent := |items| < capacity;
      if sent {
        items := items + [c];
      }
    }

    /** One receive of `for chunk := range q`: the oldest chunk, or None where the
        worker would wait. */
    method Receive() returns (c: Option<Chunk>)
      requires Valid()
      modifies this
      ensures Valid()
      ensures old(items) == [] ==> c == None && items == []
      ensures old(items) != [] ==> c == Some(old(items)[0]) && items == old(items)[1..]
    {
      if items == [] {
        c := None;
      } else {
        c := Some(items[0]);
        items := items[1..];
      }
    }
  }

  /** The engine, recording and client fields, as the engine and the handlers use them. */
  class AppState {
    var isRecording: bool
    var isRunning: bool
    var chLeft: int
    var chRight: int
    var boost: real
    var deviceID: int
    var file: Wav.WavFile?
    var samplesWrote: int
    var clients: set<ClientId>
    var primaryClient: Option<ClientId>
    var closedConns: set<ClientId>   // connections whose Close has been called
    var quitAudio: QuitToken?
    var devices: seq<DeviceInfo>
    const recordChan: ChunkQueue
    const playbackChan: ChunkQueue

    /** The state main builds: no clients, the configured channel pair and boost,
        the enumerated devices, and two channels of capacity 100. */
    constructor (devices: seq<DeviceInfo>, defaultChL: int, defaultChR: int, defaultBoost: real)
      ensures !isRecording && !isRunning && file == null && samplesWrote == 0
      ensures chLeft == defaultChL && chRight == defaultChR && boost == defaultBoost
      ensures clients == {} && primaryClient == None && closedConns == {} && quitAudio == null
      ensures this.devices == devices && deviceID == 0
      ensures fresh(recordChan) && fresh(playbackChan) && recordChan != playbackChan
      ensures recordChan.Valid() && playbackChan.Valid()
      ensures recordChan.items == [] && recordChan.capacity == QueueCapacity
      ensures playbackChan.items == [] && playbackChan.capacity == QueueCapacity
    {
      isRecording, isRunning := false, false;
      chLeft, chRight, boost, deviceID := defaultChL, defaultChR, defaultBoost, 0;
      file, samplesWrote := null, 0;
      clients, primaryClient, closedConns := {}, None, {};
      quitAudio := null;
      this.devices := devices;
      recordChan := new ChunkQueue(QueueCapacity);
      playbackChan := new ChunkQueue(QueueCapacity);
    }

    /** While recording, the file is open, its offset is at its end, and it holds
        the 44-byte header slot followed by 4 bytes per stereo sample written. */
    ghost predicate RecordingConsistent()
      reads this, file
    {
      isRecording ==>
        && file != null && file.Valid() && !file.closed
        && file.pos == |file.data|
        && 0 <= samplesWrote
        && |file.data| == Wav.HeaderSize + 4 * samplesWrote
    }
  }
}
