/**
 * The storage worker (lib/portaudio/storage.go): while recording, each stereo
 * chunk becomes 16-bit PCM appended to the open file and the sample counter
 * advances; otherwise the chunk is discarded.
 */
module Storage {
  import opened Types
  import opened LittleEndian
  import opened State
  import Wav

  /** int16(s * 32767): Go discards the fraction, truncating toward zero. */
  function Pcm16(s: real): (v: int)
    requires -1.0 <= s <= 1.0
    ensures -32767 <= v <= 32767
    ensures 0.0 <= s ==> v as real <= s * 32767.0 < v as real + 1.0
    ensures s < 0.0 ==> v as real - 1.0 < s * 32767.0 <= v as real
  {
    var x := s * 32767.0;
    if x >= 0.0 then x.Floor else -((-x).Floor)
  }

  /** The exact results for the file's doc-comment example [0.5, -0.3, 0.1, 0.2]:
      truncation gives 16383, -9830, 3276 and 6553, each one below the rounded
      value the comment lists. */
  lemma DocExampleTruncates()
    ensures Pcm16(0.5) == 16383 && Pcm16(-0.3) == -9830
    ensures Pcm16(0.1) == 3276 && Pcm16(0.2) == 6553
  {
    assert 0.5 * 32767.0 == 16383.5;
    assert -0.3 * 32767.0 == -9830.1;
    assert 0.1 * 32767.0 == 3276.7;
    assert 0.2 * 32767.0 == 6553.4;
  }

  /** The bytes the worker writes for a chunk: each sample, in order, as a
      little-endian two's-complement int16 (so L then R for every pair). */
  function PcmBytes(chunk: Chunk): (b: seq<uint8>)
    requires InUnitRange(chunk)
    ensures |b| == 2 * |chunk|
  {
    if chunk == [] then []
    else PcmBytes(chunk[..|chunk| - 1]) + PutInt16(Pcm16(chunk[|chunk| - 1]))
  }

  /** Sample k of the chunk occupies bytes 2k and 2k+1. */
  lemma {:induction false} PcmBytesAt(chunk: Chunk, k: nat)
    requires InUnitRange(chunk) && k < |chunk|
    ensures PcmBytes(chunk)[2 * k..2 * k + 2] == PutInt16(Pcm16(chunk[k]))
  {
    var last := |chunk| - 1;
    var init := chunk[..last];
    if k < last {
      PcmBytesAt(init, k);
      assert PcmBytes(chunk)[..2 * last] == PcmBytes(init);
      assert PcmBytes(chunk)[2 * k..2 * k + 2] == PcmBytes(init)[2 * k..2 * k + 2];
    }
  }

  /** A reader of 16-bit little-endian PCM: one signed value per two bytes. */
  function DecodePcm(b: seq<uint8>): (v: seq<int>)
    requires |b| % 2 == 0
    ensures |v| == |b| / 2
  {
    seq(|b| / 2, k requires 0 <= k < |b| / 2 => Int16(b[2 * k..2 * k + 2]))
  }

  lemma Halves(n: nat)
    ensures (2 * n) % 2 == 0 && (2 * n) / 2 == n
  {
  }

  /** Round trip: reading the written bytes back gives each sample's truncated
      int16 value, in chunk order. */
  lemma PcmRoundTrip(chunk: Chunk)
    requires InUnitRange(chunk)
    ensures DecodePcm(PcmBytes(chunk)) == seq(|chunk|, k requires 0 <= k < |chunk| => Pcm16(chunk[k]))
  {
    PcmDecodeEach(chunk);
  }

  lemma PcmDecodeEach(chunk: Chunk)
    requires InUnitRange(chunk)
    ensures |DecodePcm(PcmBytes(chunk))| == |chunk|
    ensures forall k | 0 <= k < |chunk| :: DecodePcm(PcmBytes(chunk))[k] == Pcm16(chunk[k])
  {
    Halves(|chunk|);
    forall k | 0 <= k < |chunk| ensures DecodePcm(PcmBytes(chunk))[k] == Pcm16(chunk[k]) {
      PcmDecodeAt(chunk, k);
    }
  }

  lemma PcmDecodeAt(chunk: Chunk, k: nat)
    requires InUnitRange(chunk) && k < |chunk|
    ensures |PcmBytes(chunk)| % 2 == 0 && k < |PcmBytes(chunk)| / 2
    ensures DecodePcm(PcmBytes(chunk))[k] == Pcm16(chunk[k])
  {
    Halves(|chunk|);
    PcmBytesAt(chunk, k);
  }

  /** Appending a pair of samples to a prefix of the chunk appends their bytes. */
  lemma PcmBytesStep(chunk: Chunk, i: nat)
    requires InUnitRange(chunk) && i + 2 <= |chunk|
    ensures PcmBytes(chunk[..i + 2])
         == PcmBytes(chunk[..i]) + PutInt16(Pcm16(chunk[i])) + PutInt16(Pcm16(chunk[i + 1]))
  {
    assert chunk[..i + 2][..i + 1] == chunk[..i + 1];
    assert chunk[..i + 1][..i] == chunk[..i];
  }

  /** binary.Write(f, binary.LittleEndian, v) for one int16; on a nil file the
      write fails and nothing happens. */
  method WriteInt16(f: Wav.WavFile?, v: int)
    requires -0x8000 <= v < 0x8000
    requires f != null ==> f.Valid()
    modifies f
    ensures f != null ==> f.Valid() && f.closed == old(f.closed)
    ensures f != null && old(f.closed) ==> f.data == old(f.data) && f.pos == old(f.pos)
    ensures f != null && !old(f.closed) ==>
      f.data == Wav.Overwrite(old(f.data), old(f.pos), PutInt16(v)) && f.pos == old(f.pos) + 2
  {
    if f != null {
      f.Write(PutInt16(v));
    }
  }

  /** One pass of the inner loop: the pair at i and i+1 is truncated and written,
      left sample first, extending what the loop has written so far. */
  method WritePair(f: Wav.WavFile?, ghost d0: seq<uint8>, ghost p0: nat, chunk: Chunk, i: nat)
    requires InUnitRange(chunk) && i + 2 <= |chunk| && p0 <= |d0|
    requires f != null ==> f.Valid()
    requires f != null && f.closed ==> f.data == d0 && f.pos == p0
    requires f != null && !f.closed ==>
      f.data == Wav.Overwrite(d0, p0, PcmBytes(chunk[..i])) && f.pos == p0 + 2 * i
    modifies f
    ensures f != null ==> f.Valid() && f.closed == old(f.closed)
    ensures f != null && f.closed ==> f.data == d0 && f.pos == p0
    ensures f != null && !f.closed ==>
      f.data == Wav.Overwrite(d0, p0, PcmBytes(chunk[..i + 2])) && f.pos == p0 + 2 * (i + 2)
  {
    var sL, sR := chunk[i], chunk[i + 1];
    var iL, iR := Pcm16(sL), Pcm16(sR);
    PcmBytesStep(chunk, i);
    WriteSamples(f, d0, p0, PcmBytes(chunk[..i]), iL, iR);
  }

  /** The two binary.Write calls of one pass, after the bytes `before` were
      written from offset p0. */
  method WriteSamples(f: Wav.WavFile?, ghost d0: seq<uint8>, ghost p0: nat, ghost before: seq<uint8>,
                      iL: int, iR: int)
    requires -0x8000 <= iL < 0x8000 && -0x8000 <= iR < 0x8000 && p0 <= |d0|
    requires f != null ==> f.Valid()
    requires f != null && f.closed ==> f.data == d0 && f.pos == p0
    requires f != null && !f.closed ==> f.data == Wav.Overwrite(d0, p0, before) && f.pos == p0 + |before|
    modifies f
    ensures f != null ==> f.Valid() && f.closed == old(f.closed)
    ensures f != null && f.closed ==> f.data == d0 && f.pos == p0
    ensures f != null && !f.closed ==>
      f.data == Wav.Overwrite(d0, p0, before + PutInt16(iL) + PutInt16(iR))
      && f.pos == p0 + |before| + 4
  {
    WriteInt16(f, iL);
    if f != null && !f.closed {
      Wav.OverwriteTwice(d0, p0, before, PutInt16(iL));
    }
    WriteInt16(f, iR);
    if f != null && !f.closed {
      Wav.OverwriteTwice(d0, p0, before + PutInt16(iL), PutInt16(iR));
    }
  }

  /** One chunk of the worker loop. When not recording nothing changes. When
      recording, the chunk's PCM bytes are written at the file offset and
      SamplesWrote grows by the number of stereo pairs; a recording whose file
      holds exactly header + 4 bytes per counted pair keeps that shape. */
  method StorageStep(state: AppState, chunk: Chunk)
    requires |chunk| % 2 == 0 && InUnitRange(chunk)
    requires state.file != null ==> state.file.Valid()
    modifies state`samplesWrote, state.file
    ensures state.file != null ==> state.file.Valid() && state.file.closed == old(state.file.closed)
    ensures !old(state.isRecording) ==>
      state.samplesWrote == old(state.samplesWrote)
      && (state.file != null ==> state.file.data == old(state.file.data) && state.file.pos == old(state.file.pos))
    ensures old(state.isRecording) ==> state.samplesWrote == old(state.samplesWrote) + |chunk| / 2
    ensures old(state.isRecording) && state.file != null && old(state.file.closed) ==>
      state.file.data == old(state.file.data) && state.file.pos == old(state.file.pos)
    ensures old(state.isRecording) && state.file != null && !old(state.file.closed) ==>
      && state.file.data == Wav.Overwrite(old(state.file.data), old(state.file.pos), PcmBytes(chunk))
      && state.file.pos == old(state.file.pos) + 2 * |chunk|
    ensures old(state.RecordingConsistent()) ==> state.RecordingConsistent()
  {
    if state.isRecording {
      var f := state.file;
      ghost var d0 := if f != null then f.data else [];
      ghost var p0 := if f != null then f.pos else 0;
      var i := 0;
      while i < |chunk|
        invariant 0 <= i <= |chunk| && i % 2 == 0
        invariant state.samplesWrote == old(state.samplesWrote)
        invariant f != null ==> f.Valid() && f.closed == old(f.closed)
        invariant f != null && f.closed ==> f.data == d0 && f.pos == p0
        invariant f != null && !f.closed ==>
          f.data == Wav.Overwrite(d0, p0, PcmBytes(chunk[..i])) && f.pos == p0 + 2 * i
      {
        WritePair(f, d0, p0, chunk, i);
        i := i + 2;
      }
      assert chunk[..|chunk|] == chunk;
      state.samplesWrote := state.samplesWrote + |chunk| / 2;
      if f != null && !f.closed && p0 == |d0| {
        Wav.OverwriteAtEnd(d0, PcmBytes(chunk));
      }
    }
  }
}
