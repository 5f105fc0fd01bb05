/**
 * The broadcast worker (lib/web/playback.go): per-channel peak meters, the
 * binary monitor packet [peakL][peakR][samples...] of little-endian float32
 * words, and its delivery to every registered client. math.Float32bits is a
 * parameter `bits`: the model never looks inside a float32 bit pattern.
 */
module Playback {
  import opened Types
  import opened LittleEndian
  import opened State

  /** One channel of an interleaved stereo buffer: side 0 is the left channel
      (even positions), side 1 the right (odd positions). */
  function Channel<T>(buffer: seq<T>, side: nat): (c: seq<T>)
    requires |buffer| % 2 == 0 && side < 2
    ensures |c| == |buffer| / 2
  {
    seq(|buffer| / 2, k requires 0 <= k < |buffer| / 2 => buffer[2 * k + side])
  }

  function Max(a: real, b: real): real
  {
    if a < b then b else a
  }

  /** The running maximum of absolute values, starting from 0. */
  function Peak(samples: seq<real>): (p: real)
    ensures 0.0 <= p
    ensures samples == [] ==> p == 0.0
  {
    if samples == [] then 0.0
    else Max(Peak(samples[..|samples| - 1]), Abs(samples[|samples| - 1]))
  }

  /** m is the largest absolute sample of c: never negative, 0 for no samples,
      no sample exceeds it, and some sample attains it. */
  predicate IsPeak(m: real, c: seq<real>)
  {
    && 0.0 <= m
    && (c == [] ==> m == 0.0)
    && (forall j | 0 <= j < |c| :: Abs(c[j]) <= m)
    && (c != [] ==> exists j | 0 <= j < |c| :: Abs(c[j]) == m)
  }

  lemma {:induction false} PeakIsMaximum(samples: seq<real>)
    ensures IsPeak(Peak(samples), samples)
  {
    if samples != [] {
      var last := |samples| - 1;
      var init := samples[..last];
      PeakIsMaximum(init);
      forall j | 0 <= j < |samples| ensures Abs(samples[j]) <= Peak(samples) {
        if j < last {
          assert samples[j] == init[j];
        }
      }
      if Peak(samples) != Abs(samples[last]) {
        var j :| 0 <= j < |init| && Abs(init[j]) == Peak(init);
        assert samples[j] == init[j];
      }
    }
  }

  /** CalculatePeakMeters: one pass over the pairs keeping the running maximum
      of |L| and of |R|. */
  method CalculatePeakMeters(buffer: seq<real>) returns (maxL: real, maxR: real)
    requires |buffer| % 2 == 0
    ensures maxL == Peak(Channel(buffer, 0)) && maxR == Peak(Channel(buffer, 1))
    ensures IsPeak(maxL, Channel(buffer, 0)) && IsPeak(maxR, Channel(buffer, 1))
  {
    ghost var left, right := Channel(buffer, 0), Channel(buffer, 1);
    maxL, maxR := 0.0, 0.0;
    var i := 0;
    while i < |buffer|
      invariant 0 <= i <= |buffer| && i % 2 == 0
      invariant maxL == Peak(left[..i / 2]) && maxR == Peak(right[..i / 2])
    {
      var sL := Abs(buffer[i]);
      var sR := Abs(buffer[i + 1]);
      if sL > maxL {
        maxL := sL;
      }
      if sR > maxR {
        maxR := sR;
      }
      PeakStep(buffer, i);
      i := i + 2;
    }
    assert left[..|buffer| / 2] == left && right[..|buffer| / 2] == right;
    PeakIsMaximum(left);
    PeakIsMaximum(right);
  }

  /** One pass of the meter loop extends each channel's prefix by one sample. */
  lemma PeakStep(buffer: seq<real>, i: nat)
    requires |buffer| % 2 == 0 && i % 2 == 0 && i + 2 <= |buffer|
    ensures Peak(Channel(buffer, 0)[..(i + 2) / 2])
         == Max(Peak(Channel(buffer, 0)[..i / 2]), Abs(buffer[i]))
    ensures Peak(Channel(buffer, 1)[..(i + 2) / 2])
         == Max(Peak(Channel(buffer, 1)[..i / 2]), Abs(buffer[i + 1]))
  {
    var k := i / 2;
    assert (i + 2) / 2 == k + 1 && 2 * k == i;
    var left, right := Channel(buffer, 0), Channel(buffer, 1);
    assert left[..k + 1][..k] == left[..k] && left[k] == buffer[i];
    assert right[..k + 1][..k] == right[..k] && right[k] == buffer[i + 1];
  }

  /** The audio words of a packet: each sample's bit pattern, in order. */
  function SampleBytes(bits: real -> uint32, chunk: Chunk): (b: seq<uint8>)
    ensures |b| == 4 * |chunk|
  {
    if chunk == [] then []
    else SampleBytes(bits, chunk[..|chunk| - 1]) + PutUint32(bits(chunk[|chunk| - 1]))
  }

  /** The monitor packet: the two peaks, then every sample, each one the
      little-endian bytes of its float32 bit pattern. */
  function PacketBytes(bits: real -> uint32, maxL: real, maxR: real, chunk: Chunk): (p: seq<uint8>)
    ensures |p| == 8 + 4 * |chunk|
  {
    PutUint32(bits(maxL)) + PutUint32(bits(maxR)) + SampleBytes(bits, chunk)
  }

  /** What the browser reads out of a packet: getFloat32 at offsets 0 and 4,
      then a Float32Array from offset 8. Words stand for the float32 values. */
  datatype MonitorFrame = MonitorFrame(peakL: uint32, peakR: uint32, samples: seq<uint32>)

  /** The bit pattern of every sample, in order. */
  function Words(bits: real -> uint32, chunk: Chunk): (w: seq<uint32>)
    ensures |w| == |chunk|
  {
    seq(|chunk|, k requires 0 <= k < |chunk| => bits(chunk[k]))
  }

  function DecodePacket(p: seq<uint8>): Option<MonitorFrame>
  {
    if |p| < 8 || (|p| - 8) % 4 != 0 then None
    else Some(MonitorFrame(Uint32(p[0..4]), Uint32(p[4..8]),
                           seq((|p| - 8) / 4, k requires 0 <= k < (|p| - 8) / 4 => Uint32(p[8 + 4 * k..8 + 4 * k + 4]))))
  }

  /** Sample k's word occupies bytes 4k..4k+3 of the audio part. */
  lemma {:induction false} SampleBytesAt(bits: real -> uint32, chunk: Chunk, k: nat)
    requires k < |chunk|
    ensures SampleBytes(bits, chunk)[4 * k..4 * k + 4] == PutUint32(bits(chunk[k]))
  {
    var last := |chunk| - 1;
    var init := chunk[..last];
    if k < last {
      SampleBytesAt(bits, init, k);
      assert SampleBytes(bits, chunk)[..4 * last] == SampleBytes(bits, init);
      assert SampleBytes(bits, chunk)[4 * k..4 * k + 4] == SampleBytes(bits, init)[4 * k..4 * k + 4];
    }
  }

  lemma PacketWordAt(bits: real -> uint32, maxL: real, maxR: real, chunk: Chunk, k: nat)
    requires k < |chunk|
    ensures PacketBytes(bits, maxL, maxR, chunk)[8 + 4 * k..8 + 4 * k + 4] == PutUint32(bits(chunk[k]))
  {
    var p := PacketBytes(bits, maxL, maxR, chunk);
    SampleBytesAt(bits, chunk, k);
    assert p[8..] == SampleBytes(bits, chunk);
    assert p[8 + 4 * k..8 + 4 * k + 4] == p[8..][4 * k..4 * k + 4];
  }

  /** Round trip: the browser reads back the two peaks' bit patterns and every
      sample's bit pattern, in the original interleaved order. */
  lemma PacketRoundTrip(bits: real -> uint32, maxL: real, maxR: real, chunk: Chunk)
    ensures DecodePacket(PacketBytes(bits, maxL, maxR, chunk))
         == Some(MonitorFrame(bits(maxL), bits(maxR), Words(bits, chunk)))
  {
    var p := PacketBytes(bits, maxL, maxR, chunk);
    assert p[0..4] == PutUint32(bits(maxL)) && p[4..8] == PutUint32(bits(maxR));
    assert (|p| - 8) % 4 == 0 && (|p| - 8) / 4 == |chunk| by {
      assert |p| - 8 == 4 * |chunk|;
    }
    var words := Words(bits, chunk);
    var frame := DecodePacket(p).value;
    assert frame.peakL == bits(maxL) && frame.peakR == bits(maxR);
    assert |frame.samples| == |words|;
    forall k | 0 <= k < |chunk| ensures frame.samples[k] == words[k] {
      PacketWordAt(bits, maxL, maxR, chunk, k);
      assert frame.samples[k] == Uint32(p[8 + 4 * k..8 + 4 * k + 4]);
    }
    assert frame.samples == words;
  }

  /** The browser's playback split of a decoded packet: the words from offset 8
      de-interleaved into a left channel (even positions) and a right channel
      (odd positions). For a stereo chunk, each channel of the decoded frame is
      the bit patterns of the same channel of the chunk, frame by frame. */
  lemma MonitorChannelsRoundTrip(bits: real -> uint32, maxL: real, maxR: real, chunk: Chunk)
    requires |chunk| % 2 == 0
    ensures var frame := DecodePacket(PacketBytes(bits, maxL, maxR, chunk));
      && frame.Some? && |frame.value.samples| == |chunk|
      && Channel(frame.value.samples, 0) == Words(bits, Channel(chunk, 0))
      && Channel(frame.value.samples, 1) == Words(bits, Channel(chunk, 1))
  {
    PacketRoundTrip(bits, maxL, maxR, chunk);
    var samples := Words(bits, chunk);
    forall side | 0 <= side < 2
      ensures Channel(samples, side) == Words(bits, Channel(chunk, side))
    {
      assert |Channel(samples, side)| == |Channel(chunk, side)|;
    }
  }

  /** binary.LittleEndian.PutUint32(buf[off:], v). */
  method PutUint32At(buf: array<uint8>, off: nat, v: uint32)
    requires off + 4 <= buf.Length
    modifies buf
    ensures buf[..] == old(buf[..])[..off] + PutUint32(v) + old(buf[..])[off + 4..]
  {
    var b := PutUint32(v);
    buf[off] := b[0];
    buf[off + 1] := b[1];
    buf[off + 2] := b[2];
    buf[off + 3] := b[3];
    assert buf[..] == old(buf[..])[..off] + b + old(buf[..])[off + 4..];
  }

  lemma PrefixAfterWrite(s: seq<uint8>, off: nat, w: seq<uint8>, t: seq<uint8>)
    requires off + |w| <= |s| && t == s[..off] + w + s[off + |w|..]
    ensures t[..off + |w|] == s[..off] + w
  {
  }

  /** The packet construction of the broadcaster: a zeroed buffer of 8 + 4N
      bytes, the two peaks at 0 and 4, then sample i at 8 + 4i. */
  method BuildPacket(bits: real -> uint32, maxL: real, maxR: real, chunk: Chunk)
    returns (packet: seq<uint8>)
    ensures |packet| == 8 + 4 * |chunk|
    ensures packet[0..4] == PutUint32(bits(maxL)) && packet[4..8] == PutUint32(bits(maxR))
    ensures packet == PacketBytes(bits, maxL, maxR, chunk)
  {
    var packetSize := 8 + 4 * |chunk|;
    var packetBuf := new uint8[packetSize](_ => 0);
    ghost var head := PutUint32(bits(maxL)) + PutUint32(bits(maxR));
    WritePeaks(packetBuf, bits(maxL), bits(maxR));
    assert packetBuf[..8] == head + SampleBytes(bits, chunk[..0]);
    for i := 0 to |chunk|
      invariant packetBuf.Length == 8 + 4 * |chunk|
      invariant packetBuf[..8 + 4 * i] == head + SampleBytes(bits, chunk[..i])
    {
      WriteSampleWord(packetBuf, bits, chunk, i, head);
    }
    assert chunk[..|chunk|] == chunk;
    assert packetBuf[..] == packetBuf[..8 + 4 * |chunk|];
    packet := packetBuf[..];
  }

  /** The two peak words at offsets 0 and 4. */
  method WritePeaks(buf: array<uint8>, wordL: uint32, wordR: uint32)
    requires 8 <= buf.Length
    modifies buf
    ensures buf[..8] == PutUint32(wordL) + PutUint32(wordR)
    ensures buf[8..] == old(buf[8..])
  {
    ghost var s0 := buf[..];
    PutUint32At(buf, 0, wordL);
    ghost var s1 := buf[..];
    PrefixAfterWrite(s0, 0, PutUint32(wordL), s1);
    PutUint32At(buf, 4, wordR);
    PrefixAfterWrite(s1, 4, PutUint32(wordR), buf[..]);
  }

  /** Sample i's word at offset 8 + 4i extends the packet's written prefix. */
  method WriteSampleWord(buf: array<uint8>, bits: real -> uint32, chunk: Chunk, i: nat, ghost head: seq<uint8>)
    requires i < |chunk| && |head| == 8 && buf.Length == 8 + 4 * |chunk|
    requires buf[..8 + 4 * i] == head + SampleBytes(bits, chunk[..i])
    modifies buf
    ensures buf[..8 + 4 * (i + 1)] == head + SampleBytes(bits, chunk[..i + 1])
    ensures buf[8 + 4 * (i + 1)..] == old(buf[8 + 4 * (i + 1)..])
  {
    ghost var before := buf[..];
    PutUint32At(buf, 8 + 4 * i, bits(chunk[i]));
    PrefixAfterWrite(before, 8 + 4 * i, PutUint32(bits(chunk[i])), buf[..]);
    assert before[..8 + 4 * i] == buf[..8 + 4 * i];
    assert chunk[..i + 1][..i] == chunk[..i];
  }

  /** One chunk of the broadcaster. The meters are computed first; with no
      client nothing is built or sent. Otherwise one packet is built and sent to
      every client: those in `failing` (the sends that return an error) are
      closed and stay registered. A send on a connection that an earlier
      broadcast already closed fails too. All others receive the packet. */
  method BroadcastAudio(state: AppState, chunk: Chunk, bits: real -> uint32, failing: set<ClientId>)
    returns (packet: Option<seq<uint8>>, delivered: set<ClientId>)
    requires |chunk| % 2 == 0
    modifies state`closedConns
    ensures state.clients == {} ==> packet == None && state.closedConns == old(state.closedConns)
    ensures state.clients != {} ==>
      packet == Some(PacketBytes(bits, Peak(Channel(chunk, 0)), Peak(Channel(chunk, 1)), chunk))
    ensures delivered == state.clients - failing - old(state.closedConns)
    ensures state.closedConns == old(state.closedConns) + state.clients * failing
  {
    var maxL, maxR := CalculatePeakMeters(chunk);
    if state.clients == {} {
      return None, {};
    }
    var p := BuildPacket(bits, maxL, maxR, chunk);
    var remaining := state.clients;
    delivered := {};
    while remaining != {}
      invariant remaining <= state.clients
      invariant delivered == (state.clients - remaining) - failing - old(state.closedConns)
      invariant state.closedConns == old(state.closedConns) + (state.clients - remaining) * failing
      decreases remaining
    {
      var c :| c in remaining;
      if c in failing {
        state.closedConns := state.closedConns + {c};
      } else if c !in state.closedConns {
        delivered := delivered + {c};
      }
      remaining := remaining - {c};
    }
    packet := Some(p);
  }
}
