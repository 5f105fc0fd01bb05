/**
 * The recording file and its 44-byte RIFF/WAVE header (lib/portaudio/wav.go).
 * The header follows the WAVE form of Microsoft/IBM's "Multimedia Programming
 * Interface and Data Specifications 1.0": a RIFF chunk holding a 16-byte PCM
 * `fmt ` chunk and the `data` chunk, every integer little-endian.
 */
module Wav {
  import opened Types
  import opened LittleEndian

  /** Writing `b` at offset `at` of `d`: the bytes before `at` stay, `b` replaces
      what was there, and the file grows when `b` runs past its end. */
  function Overwrite(d: seq<uint8>, at: nat, b: seq<uint8>): (r: seq<uint8>)
    requires at <= |d|
    ensures |r| == if at + |b| <= |d| then |d| else at + |b|
    ensures r[..at] == d[..at] && r[at..at + |b|] == b
    ensures at + |b| <= |d| ==> r[at + |b|..] == d[at + |b|..]
  {
    d[..at] + b + if at + |b| <= |d| then d[at + |b|..] else []
  }

  /** Two consecutive writes are one write of the concatenation. */
  lemma OverwriteTwice(d: seq<uint8>, at: nat, a: seq<uint8>, b: seq<uint8>)
    requires at <= |d|
    ensures Overwrite(Overwrite(d, at, a), at + |a|, b) == Overwrite(d, at, a + b)
  {
    var l, r := Overwrite(Overwrite(d, at, a), at + |a|, b), Overwrite(d, at, a + b);
    assert |l| == |r|;
    forall i | 0 <= i < |l| ensures l[i] == r[i] {
      if i < at {
        assert l[i] == l[..at][i];
        assert r[i] == r[..at][i];
      } else if i < at + |a| {
        assert l[i] == Overwrite(d, at, a)[..at + |a|][i];
        assert l[i] == a[i - at];
        assert r[i] == r[at..at + |a| + |b|][i - at];
      } else if i < at + |a| + |b| {
        assert l[i] == l[at + |a|..at + |a| + |b|][i - at - |a|];
        assert r[i] == r[at..at + |a| + |b|][i - at];
      }
    }
  }

  /** Writing at the end of the file appends. */
  lemma OverwriteAtEnd(d: seq<uint8>, b: seq<uint8>)
    ensures Overwrite(d, |d|, b) == d + b
  {
  }

  /** An *os.File opened for writing: its bytes, the write offset, and whether
      Close has been called (after which Seek and Write fail and change nothing). */
  class WavFile {
    var data: seq<uint8>
    var pos: nat
    var closed: bool

    ghost predicate Valid()
      reads this
    {
      pos <= |data|
    }

    /** os.Create: an empty, truncated file. */
    constructor Create()
      ensures Valid() && data == [] && pos == 0 && !closed
    {
      data, pos, closed := [], 0, false;
    }

    /** f.Seek(offset, 0). */
    method Seek(offset: nat)
      requires Valid() && offset <= |data|
      modifies this
      ensures Valid() && data == old(data) && closed == old(closed)
      ensures pos == if old(closed) then old(pos) else offset
    {
      if !closed {
        pos := offset;
      }
    }

    /** f.Write(b), also what binary.Write does once it has encoded its value. */
    method Write(b: seq<uint8>)
      requires Valid()
      modifies this
      ensures Valid() && closed == old(closed)
      ensures old(closed) ==> data == old(data) && pos == old(pos)
      ensures !old(closed) ==> data == Overwrite(old(data), old(pos), b) && pos == old(pos) + |b|
    {
      if !closed {
        data := Overwrite(data, pos, b);
        pos := pos + |b|;
      }
    }

    /** f.Close(); closing a closed file changes nothing. */
    method Close()
      modifies this
      ensures closed && data == old(data) && pos == old(pos)
    {
      closed := true;
    }
  }

  const HeaderSize: nat := 44

  const RiffTag: seq<uint8> := [0x52, 0x49, 0x46, 0x46]  // "RIFF"
  const WaveTag: seq<uint8> := [0x57, 0x41, 0x56, 0x45]  // "WAVE"
  const FmtTag: seq<uint8> := [0x66, 0x6d, 0x74, 0x20]   // "fmt "
  const DataTag: seq<uint8> := [0x64, 0x61, 0x74, 0x61]  // "data"

  const PcmFormat: uint16 := 1
  const FmtChunkSize: uint32 := 16
  const BitsPerSample: uint16 := 16

  /** uint32(s * int64(ch) * 2): the int64 product keeps its low 32 bits. */
  function DataSize(ch: uint16, s: int): uint32
  {
    (s * ch * 2) % TwoTo32
  }

  /** uint32(uint32(sampleRate) * uint32(ch) * 2), every step modulo 2^32. */
  function ByteRate(ch: uint16, sampleRate: int): uint32
  {
    ((sampleRate % TwoTo32) * ch * 2) % TwoTo32
  }

  /** uint16(ch * 2), computed in uint16. */
  function BlockAlign(ch: uint16): uint16
  {
    (ch * 2) % TwoTo16
  }

  /** The header FinalizeWavHeader writes for `ch` channels, `s` sample frames
      and the given sample rate: the RIFF descriptor, the `fmt ` chunk and the
      `data` chunk header, in file order. */
  function HeaderBytes(ch: uint16, s: int, sampleRate: int): (h: seq<uint8>)
    ensures |h| == HeaderSize
  {
    RiffPart(ch, s) + FmtPart(ch, sampleRate) + DataPart(ch, s)
  }

  /** Bytes 0..11: "RIFF", the RIFF size 36 + dataSize (uint32), "WAVE". */
  function RiffPart(ch: uint16, s: int): (b: seq<uint8>)
    ensures |b| == 12
  {
    RiffTag + PutUint32((36 + DataSize(ch, s)) % TwoTo32) + WaveTag
  }

  /** Bytes 12..35: "fmt ", 16, format 1, channels, rate, byte rate, block align, 16 bits. */
  function FmtPart(ch: uint16, sampleRate: int): (b: seq<uint8>)
    ensures |b| == 24
  {
    FmtTag + PutUint32(FmtChunkSize) + PutUint16(PcmFormat) + PutUint16(ch)
    + PutUint32(sampleRate % TwoTo32) + PutUint32(ByteRate(ch, sampleRate))
    + PutUint16(BlockAlign(ch)) + PutUint16(BitsPerSample)
  }

  /** Bytes 36..43: "data" and the data size. */
  function DataPart(ch: uint16, s: int): (b: seq<uint8>)
    ensures |b| == 8
  {
    DataTag + PutUint32(DataSize(ch, s))
  }

  /** The fields of a parsed header. */
  datatype WavHeader = WavHeader(riffSize: uint32, channels: uint16, sampleRate: uint32,
                                 byteRate: uint32, blockAlign: uint16,
                                 bitsPerSample: uint16, dataSize: uint32)

  /** A reader of the canonical 44-byte PCM header: the four tags, a 16-byte
      `fmt ` chunk of format 1, then the numeric fields at their offsets. */
  function ParseHeader(b: seq<uint8>): Option<WavHeader>
  {
    if |b| < HeaderSize || b[0..4] != RiffTag || b[8..12] != WaveTag || b[12..16] != FmtTag
       || Uint32(b[16..20]) != FmtChunkSize || Uint16(b[20..22]) != PcmFormat
       || b[36..40] != DataTag
    then None
    else Some(WavHeader(Uint32(b[4..8]), Uint16(b[22..24]), Uint32(b[24..28]),
                        Uint32(b[28..32]), Uint16(b[32..34]), Uint16(b[34..36]),
                        Uint32(b[40..44])))
  }

  /** Round trip: reading back a written header gives every field FinalizeWavHeader
      computed, with the Go truncations. */
  lemma HeaderRoundTrip(ch: uint16, s: int, sampleRate: int)
    ensures ParseHeader(HeaderBytes(ch, s, sampleRate))
         == Some(WavHeader((36 + DataSize(ch, s)) % TwoTo32, ch, sampleRate % TwoTo32,
                           ByteRate(ch, sampleRate), BlockAlign(ch), BitsPerSample,
                           DataSize(ch, s)))
  {
    var h := HeaderBytes(ch, s, sampleRate);
    var riff, fmt, data := RiffPart(ch, s), FmtPart(ch, sampleRate), DataPart(ch, s);
    RiffPartFields(ch, s);
    FmtPartFields(ch, sampleRate);
    DataPartFields(ch, s);
    SliceOfThree(riff, fmt, data, 0, 4);
    SliceOfThree(riff, fmt, data, 4, 8);
    SliceOfThree(riff, fmt, data, 8, 12);
    SliceOfThree(riff, fmt, data, 12, 16);
    SliceOfThree(riff, fmt, data, 16, 20);
    SliceOfThree(riff, fmt, data, 20, 22);
    SliceOfThree(riff, fmt, data, 22, 24);
    SliceOfThree(riff, fmt, data, 24, 28);
    SliceOfThree(riff, fmt, data, 28, 32);
    SliceOfThree(riff, fmt, data, 32, 34);
    SliceOfThree(riff, fmt, data, 34, 36);
    SliceOfThree(riff, fmt, data, 36, 40);
    SliceOfThree(riff, fmt, data, 40, 44);
  }

  /** The fields of the RIFF descriptor at their offsets. */
  lemma RiffPartFields(ch: uint16, s: int)
    ensures var b := RiffPart(ch, s);
      b[0..4] == RiffTag && b[4..8] == PutUint32((36 + DataSize(ch, s)) % TwoTo32) && b[8..12] == WaveTag
  {
  }

  /** The fields of the `fmt ` chunk at their offsets. */
  lemma FmtPartFields(ch: uint16, sampleRate: int)
    ensures var b := FmtPart(ch, sampleRate);
      && b[0..4] == FmtTag && b[4..8] == PutUint32(FmtChunkSize)
      && b[8..10] == PutUint16(PcmFormat) && b[10..12] == PutUint16(ch)
      && b[12..16] == PutUint32(sampleRate % TwoTo32) && b[16..20] == PutUint32(ByteRate(ch, sampleRate))
      && b[20..22] == PutUint16(BlockAlign(ch)) && b[22..24] == PutUint16(BitsPerSample)
  {
    var b := FmtPart(ch, sampleRate);
    var b1 := FmtTag + PutUint32(FmtChunkSize);
    var b2 := b1 + PutUint16(PcmFormat) + PutUint16(ch);
    var b3 := b2 + PutUint32(sampleRate % TwoTo32) + PutUint32(ByteRate(ch, sampleRate));
    assert b == b3 + PutUint16(BlockAlign(ch)) + PutUint16(BitsPerSample);
    assert b[..8] == b1 && b[..12] == b2 && b[..20] == b3;
  }

  /** The fields of the `data` chunk header at their offsets. */
  lemma DataPartFields(ch: uint16, s: int)
    ensures var b := DataPart(ch, s);
      b[0..4] == DataTag && b[4..8] == PutUint32(DataSize(ch, s))
  {
  }

  /** A slice of the 44-byte header lies within one of its three parts. */
  lemma SliceOfThree(a: seq<uint8>, b: seq<uint8>, c: seq<uint8>, i: nat, j: nat)
    requires |a| == 12 && |b| == 24 && |c| == 8 && i <= j <= 44
    requires j <= 12 || (12 <= i && j <= 36) || 36 <= i
    ensures j <= 12 ==> (a + b + c)[i..j] == a[i..j]
    ensures 12 <= i && j <= 36 ==> (a + b + c)[i..j] == b[i - 12..j - 12]
    ensures 36 <= i ==> (a + b + c)[i..j] == c[i - 36..j - 36]
  {
  }

  /** When the values fit their widths nothing is truncated: the header gives back
      the channel count, the rate and s*ch*2 data bytes, and its size fields agree
      with one another as the WAVE form requires. */
  lemma HeaderFieldsExact(ch: uint16, s: int, sampleRate: int)
    requires 0 <= s && s * ch * 2 < TwoTo32 - 36
    requires 0 <= sampleRate < TwoTo32 && sampleRate * ch * 2 < TwoTo32
    requires ch < 0x8000
    ensures ParseHeader(HeaderBytes(ch, s, sampleRate)).Some?
    ensures var h := ParseHeader(HeaderBytes(ch, s, sampleRate)).value;
      && h.channels == ch && h.sampleRate == sampleRate
      && h.dataSize == s * ch * 2 && h.riffSize == 36 + h.dataSize
      && h.blockAlign == ch * 2 && h.byteRate == sampleRate * h.blockAlign
      && h.bitsPerSample == 16
  {
    SizesExact(ch, s, sampleRate);
    HeaderRoundTrip(ch, s, sampleRate);
  }

  /** DataSize, ByteRate and BlockAlign when nothing is truncated: s*ch*2 data
      bytes, sampleRate*ch*2 bytes per second and ch*2 bytes per frame, and the
      RIFF size 36 + dataSize does not wrap either. */
  lemma SizesExact(ch: uint16, s: int, sampleRate: int)
    requires 0 <= s && s * ch * 2 < TwoTo32 - 36
    requires 0 <= sampleRate < TwoTo32 && sampleRate * ch * 2 < TwoTo32
    requires ch < 0x8000
    ensures DataSize(ch, s) == s * ch * 2 && (36 + DataSize(ch, s)) % TwoTo32 == 36 + s * ch * 2
    ensures sampleRate % TwoTo32 == sampleRate
    ensures BlockAlign(ch) == ch * 2
    ensures ByteRate(ch, sampleRate) == sampleRate * (ch * 2)
  {
    assert sampleRate * (ch * 2) == sampleRate * ch * 2;
  }

  /** A reader that looks only at the first 44 bytes: audio after the header
      does not change what is read. */
  lemma ParseHeaderIgnoresAudio(b: seq<uint8>)
    requires |b| >= HeaderSize
    ensures ParseHeader(b) == ParseHeader(b[..HeaderSize])
  {
    var p := b[..HeaderSize];
    assert b[0..4] == p[0..4] && b[4..8] == p[4..8] && b[8..12] == p[8..12];
    assert b[12..16] == p[12..16] && b[16..20] == p[16..20] && b[20..22] == p[20..22];
    assert b[22..24] == p[22..24] && b[24..28] == p[24..28] && b[28..32] == p[28..32];
    assert b[32..34] == p[32..34] && b[34..36] == p[34..36] && b[36..40] == p[36..40];
    assert b[40..44] == p[40..44];
  }

  /** Finalizing a file that already holds its 44-byte placeholder replaces
      exactly that placeholder and keeps every byte after it. */
  lemma {:induction false} FinalizeKeepsAudio(d: seq<uint8>, ch: uint16, s: int, sampleRate: int)
    requires |d| >= HeaderSize
    ensures Overwrite(d, 0, HeaderBytes(ch, s, sampleRate)) == HeaderBytes(ch, s, sampleRate) + d[HeaderSize..]
  {
  }

  /** A file whose header reads back with `ch` channels, a data size equal to
      the number of bytes after the header and a RIFF size equal to the file
      length less 8, both modulo 2^32. */
  ghost predicate ConsistentWav(file: seq<uint8>, ch: uint16)
  {
    && ParseHeader(file).Some?
    && ParseHeader(file).value.channels == ch
    && ParseHeader(file).value.dataSize == (|file| - HeaderSize) % TwoTo32
    && ParseHeader(file).value.riffSize == (|file| - 8) % TwoTo32
  }

  /** The fields a file finalized for n frames of `ch` channels reads back with. */
  lemma FinalizedFields(d: seq<uint8>, ch: uint16, n: nat, sampleRate: int, file: seq<uint8>)
    requires |d| >= HeaderSize
    requires file == Overwrite(d, 0, HeaderBytes(ch, n, sampleRate))
    ensures |file| == |d| && file[HeaderSize..] == d[HeaderSize..]
    ensures ParseHeader(file).Some? && ParseHeader(file).value.channels == ch
    ensures ParseHeader(file).value.dataSize == DataSize(ch, n)
    ensures ParseHeader(file).value.riffSize == (36 + DataSize(ch, n)) % TwoTo32
  {
    FinalizedHeader(d, ch, n, sampleRate);
  }

  /** A recording of n sample frames of `ch` 16-bit channels holds 2 * ch * n
      audio bytes after the header; once its header carries the sizes for n
      frames, the file is consistent. */
  lemma FinalizedFileConsistent(file: seq<uint8>, ch: uint16, n: nat)
    requires |file| == HeaderSize + n * ch * 2
    requires ParseHeader(file).Some? && ParseHeader(file).value.channels == ch
    requires ParseHeader(file).value.dataSize == DataSize(ch, n)
    requires ParseHeader(file).value.riffSize == (36 + DataSize(ch, n)) % TwoTo32
    ensures ConsistentWav(file, ch)
  {
    ModAddBack(36, n * ch * 2);
  }

  /** A stereo recording of n frames, 44 + 4n bytes long, finalized with n:
      the audio is kept and the header is consistent with the file. */
  lemma FinalizedStereoConsistent(d: seq<uint8>, n: nat, sampleRate: int, file: seq<uint8>)
    requires |d| == HeaderSize + 4 * n
    requires file == Overwrite(d, 0, HeaderBytes(2, n, sampleRate))
    ensures file[HeaderSize..] == d[HeaderSize..]
    ensures ConsistentWav(file, 2)
  {
    FinalizedFields(d, 2, n, sampleRate, file);
    FinalizedFileConsistent(file, 2, n);
  }

  /** A finalized file parses as the header it was given and keeps its audio. */
  lemma FinalizedHeader(d: seq<uint8>, ch: uint16, s: int, sampleRate: int)
    requires |d| >= HeaderSize
    ensures var file := Overwrite(d, 0, HeaderBytes(ch, s, sampleRate));
      && |file| == |d|
      && file[HeaderSize..] == d[HeaderSize..]
      && ParseHeader(file)
         == Some(WavHeader((36 + DataSize(ch, s)) % TwoTo32, ch, sampleRate % TwoTo32,
                           ByteRate(ch, sampleRate), BlockAlign(ch), BitsPerSample,
                           DataSize(ch, s)))
  {
    var file := Overwrite(d, 0, HeaderBytes(ch, s, sampleRate));
    FinalizeKeepsAudio(d, ch, s, sampleRate);
    assert file[..HeaderSize] == HeaderBytes(ch, s, sampleRate);
    ParseHeaderIgnoresAudio(file);
    HeaderRoundTrip(ch, s, sampleRate);
  }

  lemma ModAddBack(a: nat, x: nat)
    ensures (a + x % TwoTo32) % TwoTo32 == (a + x) % TwoTo32
  {
    var q := x / TwoTo32;
    assert x == q * TwoTo32 + x % TwoTo32;
    assert a + x == (a + x % TwoTo32) + q * TwoTo32;
  }

  /** WritePlaceholderHeader: a nil file is left alone; otherwise 44 zero bytes are
      written at offset 0 and the offset ends just after them. */
  method WritePlaceholderHeader(f: WavFile?)
    requires f != null ==> f.Valid()
    modifies f
    ensures f != null ==> f.Valid() && f.closed == old(f.closed)
    ensures f != null && old(f.closed) ==> f.data == old(f.data) && f.pos == old(f.pos)
    ensures f != null && !old(f.closed) ==>
      f.data == Overwrite(old(f.data), 0, seq(HeaderSize, _ => 0)) && f.pos == HeaderSize
  {
    if f == null {
      return;
    }
    f.Seek(0);
    f.Write(seq(HeaderSize, _ => 0));
  }

  /** FinalizeWavHeader: a nil file is left alone; otherwise the header is written
      over bytes 0..43 in thirteen writes and the file is closed. Every byte from
      offset 44 on is left as it was (see FinalizeKeepsAudio). */
  method FinalizeWavHeader(f: WavFile?, ch: uint16, s: int, sampleRate: int)
    requires f != null ==> f.Valid()
    modifies f
    ensures f != null ==> f.Valid() && f.closed
    ensures f != null && old(f.closed) ==> f.data == old(f.data)
    ensures f != null && !old(f.closed) ==>
      f.data == Overwrite(old(f.data), 0, HeaderBytes(ch, s, sampleRate))
  {
    if f == null {
      return;
    }
    ghost var d0 := f.data;
    f.Seek(0);
    OverwriteNothing(d0);
    WriteHeader(f, d0, ch, s, sampleRate);
    f.Close();
  }

  lemma OverwriteNothing(d: seq<uint8>)
    ensures Overwrite(d, 0, []) == d
  {
  }

  /** The thirteen writes of the header, from offset 0 of a file whose bytes
      were `d0`. */
  method WriteHeader(f: WavFile, ghost d0: seq<uint8>, ch: uint16, s: int, sampleRate: int)
    requires f.Valid()
    requires f.closed ==> f.data == d0
    requires !f.closed ==> f.data == d0 && f.pos == 0
    modifies f
    ensures f.Valid() && f.closed == old(f.closed)
    ensures f.closed ==> f.data == d0
    ensures !f.closed ==> f.data == Overwrite(d0, 0, HeaderBytes(ch, s, sampleRate))
  {
    var dataSize := DataSize(ch, s);
    var byteRate := ByteRate(ch, sampleRate);
    var blockAlign := BlockAlign(ch);
    WriteRiffPart(f, d0, ch, s, dataSize);
    WriteFmtPart(f, d0, RiffPart(ch, s), ch, sampleRate, byteRate, blockAlign);
    WriteDataPart(f, d0, RiffPart(ch, s) + FmtPart(ch, sampleRate), ch, s, dataSize);
  }

  /** The RIFF descriptor, as FinalizeWavHeader's first three writes. */
  method WriteRiffPart(f: WavFile, ghost d0: seq<uint8>, ch: uint16, s: int, dataSize: uint32)
    requires f.Valid() && dataSize == DataSize(ch, s)
    requires f.closed ==> f.data == d0
    requires !f.closed ==> f.data == d0 && f.pos == 0
    modifies f
    ensures f.Valid() && f.closed == old(f.closed)
    ensures f.closed ==> f.data == d0
    ensures !f.closed ==> f.data == Overwrite(d0, 0, RiffPart(ch, s)) && f.pos == 12
  {
    OverwriteNothing(d0);
    var size := PutUint32((36 + dataSize) % TwoTo32);
    assert [] + RiffTag == RiffTag;
    WriteTracked(f, d0, [], RiffTag);
    WriteTracked(f, d0, RiffTag, size);
    WriteTracked(f, d0, RiffTag + size, WaveTag);
    assert RiffTag + size + WaveTag == RiffPart(ch, s);
  }

  /** The `fmt ` chunk, as the next eight writes. */
  method WriteFmtPart(f: WavFile, ghost d0: seq<uint8>, ghost before: seq<uint8>, ch: uint16,
                      sampleRate: int, byteRate: uint32, blockAlign: uint16)
    requires f.Valid() && byteRate == ByteRate(ch, sampleRate) && blockAlign == BlockAlign(ch)
    requires f.closed ==> f.data == d0
    requires !f.closed ==> f.data == Overwrite(d0, 0, before) && f.pos == |before|
    modifies f
    ensures f.Valid() && f.closed == old(f.closed)
    ensures f.closed ==> f.data == d0
    ensures !f.closed ==> f.data == Overwrite(d0, 0, before + FmtPart(ch, sampleRate))
                          && f.pos == |before| + 24
  {
    WriteTracked(f, d0, before, FmtTag);
    ghost var w := FmtTag;
    WriteInPart(f, d0, before, w, PutUint32(FmtChunkSize));
    w := w + PutUint32(FmtChunkSize);
    WriteInPart(f, d0, before, w, PutUint16(PcmFormat));
    w := w + PutUint16(PcmFormat);
    WriteInPart(f, d0, before, w, PutUint16(ch));
    w := w + PutUint16(ch);
    WriteInPart(f, d0, before, w, PutUint32(sampleRate % TwoTo32));
    w := w + PutUint32(sampleRate % TwoTo32);
    WriteInPart(f, d0, before, w, PutUint32(byteRate));
    w := w + PutUint32(byteRate);
    WriteInPart(f, d0, before, w, PutUint16(blockAlign));
    w := w + PutUint16(blockAlign);
    WriteInPart(f, d0, before, w, PutUint16(BitsPerSample));
    w := w + PutUint16(BitsPerSample);
    assert w == FmtPart(ch, sampleRate);
  }

  /** The `data` chunk header, as the last two writes. */
  method WriteDataPart(f: WavFile, ghost d0: seq<uint8>, ghost before: seq<uint8>,
                       ch: uint16, s: int, dataSize: uint32)
    requires f.Valid() && dataSize == DataSize(ch, s)
    requires f.closed ==> f.data == d0
    requires !f.closed ==> f.data == Overwrite(d0, 0, before) && f.pos == |before|
    modifies f
    ensures f.Valid() && f.closed == old(f.closed)
    ensures f.closed ==> f.data == d0
    ensures !f.closed ==> f.data == Overwrite(d0, 0, before + DataPart(ch, s))
                          && f.pos == |before| + 8
  {
    WriteTracked(f, d0, before, DataTag);
    WriteInPart(f, d0, before, DataTag, PutUint32(dataSize));
  }

  /** One write inside a part `w` of the header that follows the bytes `before`. */
  method WriteInPart(f: WavFile, ghost d0: seq<uint8>, ghost before: seq<uint8>, ghost w: seq<uint8>,
                     b: seq<uint8>)
    requires f.Valid()
    requires f.closed ==> f.data == d0
    requires !f.closed ==> f.data == Overwrite(d0, 0, before + w) && f.pos == |before| + |w|
    modifies f
    ensures f.Valid() && f.closed == old(f.closed)
    ensures f.closed ==> f.data == d0
    ensures !f.closed ==> f.data == Overwrite(d0, 0, before + (w + b)) && f.pos == |before| + |w + b|
  {
    WriteTracked(f, d0, before + w, b);
    assert before + w + b == before + (w + b);
  }

  /** One write of a sequence of writes from offset 0: after it, an open file is
      the original with everything written so far laid over its front, and a
      closed one is still the original. */
  method WriteTracked(f: WavFile, ghost d0: seq<uint8>, ghost written: seq<uint8>, b: seq<uint8>)
    requires f.Valid()
    requires f.closed ==> f.data == d0
    requires !f.closed ==> f.data == Overwrite(d0, 0, written) && f.pos == |written|
    modifies f
    ensures f.Valid() && f.closed == old(f.closed)
    ensures f.closed ==> f.data == d0
    ensures !f.closed ==> f.data == Overwrite(d0, 0, written + b) && f.pos == |written + b|
  {
    f.Write(b);
    OverwriteTwice(d0, 0, written, b);
  }
}
