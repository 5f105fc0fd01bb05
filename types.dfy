/** Values shared by the capture engine, the two workers and the web handlers. */
module Types {

  datatype Option<T> = None | Some(value: T)

  datatype Result<T, E> = Success(value: T) | Failure(error: E)

  /** Go's fixed-width unsigned integers, as subsets of the unbounded int. */
  type uint8 = x: int | 0 <= x < 0x100
  type uint16 = x: int | 0 <= x < 0x1_0000
  type uint32 = x: int | 0 <= x < 0x1_0000_0000

  const TwoTo16: int := 0x1_0000
  const TwoTo32: int := 0x1_0000_0000

  /** The identity of one websocket client (a *WSClient in lib/web/server.go). */
  type ClientId = nat

  /** One stereo chunk, interleaved [L, R, L, R, ...]; float32 samples are reals here. */
  type Chunk = seq<real>

  /** Every queue between the engine and a worker is a Go channel of this capacity. */
  const QueueCapacity: nat := 100

  /** What PortAudio reports about one device (only the fields the core reads). */
  datatype DeviceInfo = DeviceInfo(name: string, maxInputChannels: int)

  /** One entry of the device list served to the UI. */
  datatype AudioDevice = AudioDevice(id: int, name: string, inputs: int)

  /** math.Abs on a sample. */
  function Abs(x: real): real
  {
    if x < 0.0 then -x else x
  }

  /** All samples lie in the float range the engine produces. */
  predicate InUnitRange(chunk: Chunk)
  {
    forall k | 0 <= k < |chunk| :: -1.0 <= chunk[k] <= 1.0
  }
}
