/**
 * The WAV loader of the sound player (cpp_source/sound_player.cpp, `load_wav`).
 *
 * A WAV file is a RIFF form of type WAVE: the four bytes "RIFF", a 32-bit size,
 * the four bytes "WAVE", then chunks, each a four-byte id, a 32-bit
 * little-endian size and that many bytes.  The loader reads the first chunk as
 * the format chunk without looking at its id, copies its body into the
 * 18-byte format record (WAVEFORMATEX), skips chunks until one with id "data"
 * and returns that chunk's body.  Like the source, the model ignores RIFF's
 * padding of odd-sized chunks to an even length.
 *
 * The file's contents are a byte sequence; opening the file is not modelled.
 */
module Wav {
  import opened Wrappers

  newtype byte = x: int | 0 <= x < 256

  const Pow32: nat := 0x1_0000_0000

  const RiffId: seq<byte> := [0x52, 0x49, 0x46, 0x46]  // "RIFF"
  const WaveId: seq<byte> := [0x57, 0x41, 0x56, 0x45]  // "WAVE"
  const DataId: seq<byte> := [0x64, 0x61, 0x74, 0x61]  // "data"

  /** sizeof(WAVEFORMATEX), the record the format chunk's body is copied into. */
  const FormatRecordSize: nat := 18

  /** Offsets of the fixed header fields. */
  const FormatSizeAt: nat := 16
  const FormatBodyAt: nat := 20

  /** Why a file is refused. */
  datatype WavError =
    | Truncated       // the file ends inside the fixed header or the format chunk
    | NotRiff         // bytes 0-3 are not "RIFF"
    | NotWave         // bytes 8-11 are not "WAVE"
    | FormatTooLarge  // the format chunk is larger than the format record
    | NoDataChunk     // the file ends before a "data" chunk id

  /** A loaded sound: the format record and the sample bytes. */
  datatype WavSound = WavSound(format: seq<byte>, buffer: seq<byte>)

  /** n zero bytes. */
  function Zeros(n: nat): seq<byte> {
    seq(n, _ => 0)
  }

  /** The unsigned 32-bit little-endian number stored at b[i..i+4]. */
  function U32At(b: seq<byte>, i: nat): (n: nat)
    requires i + 4 <= |b|
    ensures n < Pow32
  {
    b[i] as int + 256 * (b[i + 1] as int + 256 * (b[i + 2] as int + 256 * (b[i + 3] as int)))
  }

  /** U32At reads only the four bytes it starts at. */
  lemma U32AtWindow(b: seq<byte>, i: nat, w: seq<byte>)
    requires i + 4 <= |b| && b[i..i + 4] == w
    ensures U32At(b, i) == U32At(w, 0)
  {
    assert b[i] == w[0] && b[i + 1] == w[1] && b[i + 2] == w[2] && b[i + 3] == w[3];
  }

  /** The four little-endian bytes of a 32-bit number. */
  function U32Bytes(n: nat): (b: seq<byte>)
    requires n < Pow32
    ensures |b| == 4 && U32At(b, 0) == n
  {
    var q1 := n / 256;
    var q2 := q1 / 256;
    [(n % 256) as byte, (q1 % 256) as byte, (q2 % 256) as byte, (q2 / 256) as byte]
  }

  /** Dividing lo + 256 * hi by 256 separates a low byte from the rest. */
  lemma ByteDivMod(lo: int, hi: nat)
    requires 0 <= lo < 256
    ensures (lo + 256 * hi) % 256 == lo && (lo + 256 * hi) / 256 == hi
  {
  }

  /** Encoding the number four bytes hold gives those bytes back. */
  lemma U32BytesOfU32At(w: seq<byte>)
    requires |w| == 4
    ensures U32Bytes(U32At(w, 0)) == w
  {
    var b0, b1, b2, b3 := w[0] as int, w[1] as int, w[2] as int, w[3] as int;
    var q2: nat := b2 + 256 * b3;
    var q1: nat := b1 + 256 * q2;
    ByteDivMod(b0, q1);
    ByteDivMod(b1, q2);
    ByteDivMod(b2, b3);
    var r := U32Bytes(U32At(w, 0));
    assert r[0] == w[0] && r[1] == w[1] && r[2] == w[2] && r[3] == w[3];
  }

  /** n bytes read from position pos, as the source's stream reads them into a
      zero-initialised buffer: the bytes the file still has, then zeros. */
  function ReadPadded(b: seq<byte>, pos: nat, n: nat): (r: seq<byte>)
    requires pos <= |b|
    ensures |r| == n
    ensures forall i | 0 <= i < n && pos + i < |b| :: r[i] == b[pos + i]
    ensures forall i | 0 <= i < n && pos + i >= |b| :: r[i] == 0
  {
    if pos + n <= |b| then b[pos..pos + n] else b[pos..] + Zeros(pos + n - |b|)
  }

  /** The four bytes at pos are the chunk id `id` (the source's memcmp). */
  predicate IdAt(b: seq<byte>, pos: nat, id: seq<byte>)
    requires pos + 4 <= |b| && |id| == 4
  {
    b[pos] == id[0] && b[pos + 1] == id[1] && b[pos + 2] == id[2] && b[pos + 3] == id[3]
  }

  lemma IdAtSlice(b: seq<byte>, pos: nat, id: seq<byte>)
    requires pos + 4 <= |b| && |id| == 4
    ensures IdAt(b, pos, id) <==> b[pos..pos + 4] == id
  {
    if IdAt(b, pos, id) {
      assert b[pos..pos + 4] == id;
    }
  }

  /** The chunk scan: starting at a chunk id at pos, skip every chunk whose id is
      not "data" by its declared size; the result is the position just after the
      first "data" id. */
  function FindData(b: seq<byte>, pos: nat): (r: Result<nat, WavError>)
    ensures r.Ok? ==> pos + 4 <= r.value <= |b| && IdAt(b, r.value - 4, DataId)
    ensures r.Err? ==> r.error == NoDataChunk
    decreases |b| - pos
  {
    if pos + 4 > |b| then Err(NoDataChunk)
    else if IdAt(b, pos, DataId) then Ok(pos + 4)
    else if pos + 8 > |b| then Err(NoDataChunk)
    else FindData(b, pos + 8 + U32At(b, pos + 4))
  }

  /** The data chunk's size field and body, read from p (just after the "data"
      id): the size is what the size field's bytes give over a zero initialiser,
      and the buffer is that long and holds the bytes after the size field as far
      as the file has them, then zeros. */
  function DataBody(b: seq<byte>, p: nat): (buffer: seq<byte>)
    requires p <= |b|
    ensures |buffer| == U32At(ReadPadded(b, p, 4), 0)
    ensures p + 4 <= |b| ==> |buffer| == U32At(b, p)
    ensures forall i | 0 <= i < |buffer| && p + 4 + i < |b| :: buffer[i] == b[p + 4 + i]
    ensures forall i | 0 <= i < |buffer| && p + 4 + i >= |b| :: buffer[i] == 0
  {
    var sizeField := ReadPadded(b, p, 4);
    var start := if p + 4 <= |b| then p + 4 else |b|;
    ReadPadded(b, start, U32At(sizeField, 0))
  }

  /** The format chunk's declared size. */
  function FormatSize(b: seq<byte>): nat
    requires FormatBodyAt <= |b|
  {
    U32At(b, FormatSizeAt)
  }

  /** The fixed header is complete and carries both magic ids. */
  predicate HeaderOk(b: seq<byte>) {
    FormatBodyAt <= |b| && b[..4] == RiffId && b[8..12] == WaveId
  }

  /** What `load_wav` makes of a file's bytes. */
  function ParseWav(b: seq<byte>): (r: Result<WavSound, WavError>)
    ensures |b| >= 4 && b[..4] != RiffId ==> r == Err(NotRiff)
    ensures |b| >= 12 && b[..4] == RiffId && b[8..12] != WaveId ==> r == Err(NotWave)
    ensures r.Ok? ==> HeaderOk(b) && FormatSize(b) <= FormatRecordSize && FormatBodyAt + FormatSize(b) <= |b|
    // the format record holds the format chunk's body, then zeros
    ensures r.Ok? ==>
      |r.value.format| == FormatRecordSize &&
      r.value.format[..FormatSize(b)] == b[FormatBodyAt..FormatBodyAt + FormatSize(b)] &&
      forall i | FormatSize(b) <= i < FormatRecordSize :: r.value.format[i] == 0
    // the buffer is exactly as long as the data chunk declares (its size field
    // read over zeros), and holds the bytes after the size field as far as the
    // file has them, then zeros
    ensures r.Ok? ==>
      var p := FindData(b, FormatBodyAt + FormatSize(b));
      p.Ok? &&
      |r.value.buffer| == U32At(ReadPadded(b, p.value, 4), 0) &&
      (p.value + 4 <= |b| ==> |r.value.buffer| == U32At(b, p.value)) &&
      (forall i | 0 <= i < |r.value.buffer| && p.value + 4 + i < |b| :: r.value.buffer[i] == b[p.value + 4 + i]) &&
      (forall i | 0 <= i < |r.value.buffer| && p.value + 4 + i >= |b| :: r.value.buffer[i] == 0)
    // once the header is accepted, the only failure left is a missing "data" id
    ensures HeaderOk(b) && FormatSize(b) <= FormatRecordSize && FormatBodyAt + FormatSize(b) <= |b| ==>
              (r.Err? <==> FindData(b, FormatBodyAt + FormatSize(b)).Err?)
  {
    if |b| < 4 then Err(Truncated)
    else if b[..4] != RiffId then Err(NotRiff)
    else if |b| < 12 then Err(Truncated)
    else if b[8..12] != WaveId then Err(NotWave)
    else if |b| < FormatBodyAt then Err(Truncated)
    else
      var fmtSize := U32At(b, FormatSizeAt);
      if fmtSize > FormatRecordSize then Err(FormatTooLarge)
      else if FormatBodyAt + fmtSize > |b| then Err(Truncated)
      else
        match FindData(b, FormatBodyAt + fmtSize)
        case Err(e) => Err(e)
        case Ok(p) =>
          Ok(WavSound(b[FormatBodyAt..FormatBodyAt + fmtSize] + Zeros(FormatRecordSize - fmtSize),
                      DataBody(b, p)))
  }

  /** The loader accepts a file whose header is right, whose format body fits
      the record, and whose scan finds a data chunk. */
  lemma ParseWavAccepts(b: seq<byte>, fmt: seq<byte>, q: nat, payload: seq<byte>)
    requires HeaderOk(b) && FormatSize(b) == |fmt| <= FormatRecordSize
    requires FormatBodyAt + |fmt| <= |b| && b[FormatBodyAt..FormatBodyAt + |fmt|] == fmt
    requires FindData(b, FormatBodyAt + |fmt|) == Ok(q) && DataBody(b, q) == payload
    ensures ParseWav(b) == Ok(WavSound(fmt + Zeros(FormatRecordSize - |fmt|), payload))
  {
  }

  /** The loader rejects a file whose header is right but whose scan finds no
      data chunk. */
  lemma ParseWavRejects(b: seq<byte>)
    requires HeaderOk(b) && FormatSize(b) <= FormatRecordSize && FormatBodyAt + FormatSize(b) <= |b|
    requires FindData(b, FormatBodyAt + FormatSize(b)).Err?
    ensures ParseWav(b) == Err(NoDataChunk)
  {
  }

  /** `load_wav` as the stream-reading loop it is: a cursor advances over the
      bytes, and the chunk scan is a while loop over chunk ids. */
  method LoadWav(b: seq<byte>) returns (r: Result<WavSound, WavError>)
    ensures r == ParseWav(b)
  {
    if |b| < 4 { return Err(Truncated); }
    if b[..4] != RiffId { return Err(NotRiff); }
    // the RIFF size at 4..8 is skipped
    if |b| < 12 { return Err(Truncated); }
    if b[8..12] != WaveId { return Err(NotWave); }
    // the format chunk's id at 12..16 is read and not checked
    if |b| < FormatBodyAt { return Err(Truncated); }
    var fmtSize := U32At(b, FormatSizeAt);
    if fmtSize > FormatRecordSize { return Err(FormatTooLarge); }
    if FormatBodyAt + fmtSize > |b| { return Err(Truncated); }
    var format := b[FormatBodyAt..FormatBodyAt + fmtSize] + Zeros(FormatRecordSize - fmtSize);
    var pos := FormatBodyAt + fmtSize;

    var found := SkipToData(b, pos);
    if found.Err? {
      ParseWavRejects(b);
      return Err(found.error);
    }
    var dataAt := found.value;
    var buffer := ReadDataChunk(b, dataAt);
    ParseWavAccepts(b, b[FormatBodyAt..FormatBodyAt + fmtSize], dataAt, buffer);
    return Ok(WavSound(format, buffer));
  }

  /** The data chunk's read on the stream: the size is read over a zeroed
      `uint32_t`, the buffer is resized to that many zeros, and the payload is
      read into it; this gives exactly DataBody. */
  method ReadDataChunk(b: seq<byte>, at: nat) returns (buffer: seq<byte>)
    requires at <= |b|
    ensures buffer == DataBody(b, at)
  {
    var (s1, sizeBytes) := StreamRead(b, Stream(at, false), [0, 0, 0, 0]);
    assert sizeBytes == ReadPadded(b, at, 4);
    var (s2, payload) := StreamRead(b, s1, Zeros(U32At(sizeBytes, 0)));
    buffer := payload;
  }

  /** The chunk scan of the loader: from `start`, reads a chunk id and, while it
      is not "data", reads the chunk's size and jumps over its body. */
  method SkipToData(b: seq<byte>, start: nat) returns (r: Result<nat, WavError>)
    ensures r == FindData(b, start)
  {
    var pos := start;
    // the chunk id just read is the four bytes before pos
    if pos + 4 > |b| { return Err(NoDataChunk); }
    pos := pos + 4;
    while !IdAt(b, pos - 4, DataId)
      invariant 4 <= pos <= |b|
      invariant FindData(b, pos - 4) == FindData(b, start)
      decreases |b| - pos
    {
      if pos + 4 > |b| { return Err(NoDataChunk); }
      var skipSize := U32At(b, pos);
      FindDataSkipsOne(b, pos - 4);
      pos := pos + 4 + skipSize;
      if pos + 4 > |b| { return Err(NoDataChunk); }
      pos := pos + 4;
    }
    return Ok(pos);
  }

  /** The chunk scan reads nothing before its starting position. */
  lemma {:induction false} FindDataReadsFrom(b: seq<byte>, c: seq<byte>, pos: nat, from: nat)
    requires |b| == |c| && from <= pos
    requires forall k | from <= k < |b| :: b[k] == c[k]
    ensures FindData(b, pos) == FindData(c, pos)
    decreases |b| - pos
  {
    if pos + 4 <= |b| {
      if !IdAt(b, pos, DataId) && pos + 8 <= |b| {
        var next := pos + 8 + U32At(b, pos + 4);
        assert U32At(c, pos + 4) == U32At(b, pos + 4) by {
          U32AtWindow(c, pos + 4, b[pos + 4..pos + 8]);
        }
        FindDataSkipsOne(b, pos);
        FindDataSkipsOne(c, pos);
        FindDataReadsFrom(b, c, next, from);
      }
    }
  }

  /** Reading the data chunk reads nothing before its position. */
  lemma DataBodyReadsFrom(b: seq<byte>, c: seq<byte>, p: nat, from: nat)
    requires |b| == |c| && from <= p <= |b| && b[from..] == c[from..]
    ensures DataBody(b, p) == DataBody(c, p)
  {
    forall k | from <= k < |b| ensures b[k] == c[k] {
      assert b[k] == b[from..][k - from];
    }
    assert ReadPadded(b, p, 4) == ReadPadded(c, p, 4);
    var start := if p + 4 <= |b| then p + 4 else |b|;
    var size := U32At(ReadPadded(b, p, 4), 0);
    assert ReadPadded(b, start, size) == ReadPadded(c, start, size);
  }

  /** Two files with accepted headers, the same format size and the same bytes
      from the format body on load the same. */
  lemma SameBodySameParse(b: seq<byte>, c: seq<byte>)
    requires |b| == |c| && HeaderOk(b) && HeaderOk(c) && FormatSize(b) == FormatSize(c)
    requires FormatSize(b) <= FormatRecordSize && FormatBodyAt + FormatSize(b) <= |b|
    requires b[FormatBodyAt..] == c[FormatBodyAt..]
    ensures ParseWav(b) == ParseWav(c)
  {
    var n := FormatSize(b);
    forall k | FormatBodyAt <= k < |b| ensures b[k] == c[k] {
      assert b[k] == b[FormatBodyAt..][k - FormatBodyAt];
    }
    var fmt := b[FormatBodyAt..FormatBodyAt + n];
    assert fmt == c[FormatBodyAt..FormatBodyAt + n];
    FindDataReadsFrom(b, c, FormatBodyAt + n, FormatBodyAt);
    var f := FindData(b, FormatBodyAt + n);
    if f.Ok? {
      DataBodyReadsFrom(b, c, f.value, FormatBodyAt);
      ParseWavAccepts(b, fmt, f.value, DataBody(b, f.value));
      ParseWavAccepts(c, fmt, f.value, DataBody(b, f.value));
    } else {
      ParseWavRejects(b);
      ParseWavRejects(c);
    }
  }

  /** Bytes 4-7 (the RIFF size) and 12-15 (the format chunk's id) never change
      what the loader returns. */
  lemma IgnoredHeaderBytes(b: seq<byte>, c: seq<byte>)
    requires |b| == |c|
    requires forall i | 0 <= i < |b| && !(4 <= i < 8) && !(12 <= i < 16) :: b[i] == c[i]
    ensures ParseWav(b) == ParseWav(c)
  {
    if |b| >= FormatBodyAt {
      assert b[..4] == c[..4];
      assert b[8..12] == c[8..12];
      assert U32At(b, FormatSizeAt) == U32At(c, FormatSizeAt);
      var n := U32At(b, FormatSizeAt);
      if HeaderOk(b) && n <= FormatRecordSize && FormatBodyAt + n <= |b| {
        assert b[FormatBodyAt..] == c[FormatBodyAt..];
        SameBodySameParse(b, c);
      }
    } else if |b| >= 12 {
      assert b[..4] == c[..4];
      assert b[8..12] == c[8..12];
    } else if |b| >= 4 {
      assert b[..4] == c[..4];
    }
  }

  // ---------------------------------------------------------------------------
  // Writing WAV files, to state what the loader recovers from them.

  /** A chunk of the RIFF form: a four-byte id and its body. */
  datatype Chunk = Chunk(id: seq<byte>, body: seq<byte>)

  /** A chunk the scan must skip: well formed, and not the "data" chunk. */
  predicate Skippable(c: Chunk) {
    |c.id| == 4 && c.id != DataId && |c.body| < Pow32
  }

  predicate AllSkippable(cs: seq<Chunk>) {
    cs == [] || (Skippable(cs[0]) && AllSkippable(cs[1..]))
  }

  /** A chunk as stored: id, little-endian size, body. */
  function ChunkBytes(c: Chunk): seq<byte>
    requires Skippable(c)
  {
    c.id + U32Bytes(|c.body|) + c.body
  }

  /** A run of chunks as stored. */
  function ChainBytes(cs: seq<Chunk>): seq<byte>
    requires AllSkippable(cs)
  {
    if cs == [] then [] else ChunkBytes(cs[0]) + ChainBytes(cs[1..])
  }

  /** The fixed header and the format chunk: "RIFF", the RIFF size, "WAVE", the
      format chunk's id, its size and its body. */
  function HeaderBytes(riffSize: nat, fmtId: seq<byte>, fmt: seq<byte>): (h: seq<byte>)
    requires riffSize < Pow32 && |fmtId| == 4 && |fmt| < Pow32
  {
    RiffId + U32Bytes(riffSize) + WaveId + fmtId + U32Bytes(|fmt|) + fmt
  }

  /** The data chunk: "data", the payload's size and the payload. */
  function DataChunkBytes(payload: seq<byte>): seq<byte>
    requires |payload| < Pow32
  {
    DataId + U32Bytes(|payload|) + payload
  }

  /** A WAV file: the RIFF header with any size, a format chunk with any id,
      chunks to skip, the data chunk, and any trailing bytes. */
  function BuildWav(riffSize: nat, fmtId: seq<byte>, fmt: seq<byte>, chunks: seq<Chunk>,
                    payload: seq<byte>, trailer: seq<byte>): seq<byte>
    requires riffSize < Pow32 && |fmtId| == 4 && |fmt| < Pow32 && |payload| < Pow32
    requires AllSkippable(chunks)
  {
    HeaderBytes(riffSize, fmtId, fmt) + ChainBytes(chunks) + (DataChunkBytes(payload) + trailer)
  }

  /** The three parts of a concatenation, recovered by slicing. */
  lemma PartsOf(x: seq<byte>, y: seq<byte>, z: seq<byte>)
    ensures var b := x + y + z;
            |x| + |y| <= |b| && b[..|x|] == x && b[|x|..|x| + |y|] == y && b[|x| + |y|..] == z
  {
  }

  /** What the loader reads from a file that starts with a header. */
  lemma HeaderFields(b: seq<byte>, riffSize: nat, fmtId: seq<byte>, fmt: seq<byte>)
    requires riffSize < Pow32 && |fmtId| == 4 && |fmt| < Pow32
    requires |HeaderBytes(riffSize, fmtId, fmt)| <= |b|
    requires b[..|HeaderBytes(riffSize, fmtId, fmt)|] == HeaderBytes(riffSize, fmtId, fmt)
    ensures |HeaderBytes(riffSize, fmtId, fmt)| == FormatBodyAt + |fmt|
    ensures HeaderOk(b) && U32At(b, FormatSizeAt) == |fmt| && b[FormatBodyAt..FormatBodyAt + |fmt|] == fmt
  {
    var h := HeaderBytes(riffSize, fmtId, fmt);
    var size := U32Bytes(|fmt|);
    assert b[..4] == RiffId by {
      assert b[..4] == h[..4];
    }
    assert b[8..12] == WaveId by {
      assert b[8..12] == h[8..12];
    }
    assert b[FormatSizeAt..FormatBodyAt] == size by {
      assert b[FormatSizeAt..FormatBodyAt] == h[FormatSizeAt..FormatBodyAt];
    }
    U32AtWindow(b, FormatSizeAt, size);
    assert b[FormatBodyAt..FormatBodyAt + |fmt|] == fmt by {
      assert b[FormatBodyAt..FormatBodyAt + |fmt|] == h[FormatBodyAt..];
    }
  }

  /** What the loader reads from a data chunk followed by anything. */
  lemma DataChunkFields(b: seq<byte>, at: nat, payload: seq<byte>, trailer: seq<byte>)
    requires |payload| < Pow32
    requires at + |DataChunkBytes(payload) + trailer| == |b|
    requires b[at..] == DataChunkBytes(payload) + trailer
    ensures at + 8 <= |b| && IdAt(b, at, DataId) && DataBody(b, at + 4) == payload
  {
    var d := DataChunkBytes(payload) + trailer;
    var size := U32Bytes(|payload|);
    assert b[at..at + 4] == DataId by {
      assert b[at..at + 4] == d[..4];
    }
    IdAtSlice(b, at, DataId);
    assert b[at + 4..at + 8] == size by {
      assert b[at + 4..at + 8] == d[4..8];
    }
    U32AtWindow(b, at + 4, size);
    assert b[at + 8..at + 8 + |payload|] == payload by {
      assert b[at + 8..at + 8 + |payload|] == d[8..8 + |payload|];
    }
  }

  /** One step of the scan: a chunk that is not "data" is skipped by its size. */
  lemma FindDataSkipsOne(b: seq<byte>, pos: nat)
    requires pos + 8 <= |b| && !IdAt(b, pos, DataId)
    ensures FindData(b, pos) == FindData(b, pos + 8 + U32At(b, pos + 4))
  {
  }

  /** A scan that skips the chunk at `pos` ends where the scan from the next
      chunk ends. */
  lemma FindDataSkipsTo(b: seq<byte>, pos: nat, next: nat, end: nat)
    requires pos + 8 <= |b| && !IdAt(b, pos, DataId) && next == pos + 8 + U32At(b, pos + 4)
    requires FindData(b, next) == Ok(end)
    ensures FindData(b, pos) == Ok(end)
  {
    FindDataSkipsOne(b, pos);
  }

  /** The scan stops at a "data" id. */
  lemma FindDataAtData(b: seq<byte>, pos: nat)
    requires pos + 4 <= |b| && IdAt(b, pos, DataId)
    ensures FindData(b, pos) == Ok(pos + 4)
  {
  }

  /** A slice of a window of `b` is a slice of `b`. */
  lemma SliceInWindow(b: seq<byte>, at: nat, n: nat, i: nat, j: nat)
    requires at + n <= |b| && i <= j <= n
    ensures b[at + i..at + j] == b[at..at + n][i..j]
  {
    var inner, outer := b[at + i..at + j], b[at..at + n][i..j];
    forall k | 0 <= k < j - i
      ensures inner[k] == outer[k]
    {
      assert inner[k] == b[at + i + k];
    }
  }

  /** A window of `b` holding x + y holds x, then y. */
  lemma WindowSplit(b: seq<byte>, at: nat, x: seq<byte>, y: seq<byte>)
    requires at + |x| + |y| <= |b| && b[at..at + |x| + |y|] == x + y
    ensures b[at..at + |x|] == x && b[at + |x|..at + |x| + |y|] == y
  {
    SliceInWindow(b, at, |x| + |y|, 0, |x|);
    SliceInWindow(b, at, |x| + |y|, |x|, |x| + |y|);
    assert (x + y)[..|x|] == x && (x + y)[|x|..] == y;
  }

  /** Where a stored chunk starts, the scan finds its id and its size. */
  lemma ChunkHeaderAt(b: seq<byte>, at: nat, c: Chunk)
    requires Skippable(c)
    requires at + |ChunkBytes(c)| <= |b| && b[at..at + |ChunkBytes(c)|] == ChunkBytes(c)
    ensures at + 8 <= |b| && !IdAt(b, at, DataId) && U32At(b, at + 4) == |c.body|
    ensures 8 + U32At(b, at + 4) == |ChunkBytes(c)|
  {
    var chunk := ChunkBytes(c);
    var size := U32Bytes(|c.body|);
    assert chunk[..4] == c.id && chunk[4..8] == size;
    SliceInWindow(b, at, |chunk|, 0, 4);
    SliceInWindow(b, at, |chunk|, 4, 8);
    IdAtSlice(b, at, DataId);
    U32AtWindow(b, at + 4, size);
  }

  /** Where a stored run of chunks starts, its first chunk and the rest follow. */
  lemma ChainSplitAt(b: seq<byte>, at: nat, cs: seq<Chunk>)
    requires cs != [] && AllSkippable(cs)
    requires at + |ChainBytes(cs)| <= |b| && b[at..at + |ChainBytes(cs)|] == ChainBytes(cs)
    ensures var next := at + |ChunkBytes(cs[0])|;
            next + |ChainBytes(cs[1..])| == at + |ChainBytes(cs)| &&
            b[at..next] == ChunkBytes(cs[0]) && b[next..next + |ChainBytes(cs[1..])|] == ChainBytes(cs[1..])
  {
    var chunk, tail, chain := ChunkBytes(cs[0]), ChainBytes(cs[1..]), ChainBytes(cs);
    assert chain == chunk + tail;
    assert |chain| == |chunk| + |tail|;
    WindowSplit(b, at, chunk, tail);
  }

  /** The scan skips a run of stored non-"data" chunks, each by its size, and
      stops at the "data" id that follows them. */
  lemma {:induction false} FindDataSkipsChain(b: seq<byte>, at: nat, cs: seq<Chunk>)
    requires AllSkippable(cs)
    requires at + |ChainBytes(cs)| + 4 <= |b| && b[at..at + |ChainBytes(cs)|] == ChainBytes(cs)
    requires IdAt(b, at + |ChainBytes(cs)|, DataId)
    ensures FindData(b, at) == Ok(at + |ChainBytes(cs)| + 4)
    decreases |cs|
  {
    if cs == [] {
      FindDataAtData(b, at);
    } else {
      var next := at + |ChunkBytes(cs[0])|;
      ChainSplitAt(b, at, cs);
      ChunkHeaderAt(b, at, cs[0]);
      FindDataSkipsChain(b, next, cs[1..]);
      FindDataSkipsTo(b, at, next, at + |ChainBytes(cs)| + 4);
    }
  }

  /** The loader's view of a file laid out as a header, a run of chunks to
      skip and a data chunk, stated on the file's bytes alone. */
  lemma ParseLaidOut(b: seq<byte>, fmt: seq<byte>, chunks: seq<Chunk>, payload: seq<byte>, trailer: seq<byte>)
    requires |fmt| <= FormatRecordSize && |payload| < Pow32 && AllSkippable(chunks)
    requires HeaderOk(b) && FormatBodyAt + |fmt| <= |b| && U32At(b, FormatSizeAt) == |fmt|
    requires b[FormatBodyAt..FormatBodyAt + |fmt|] == fmt
    requires FormatBodyAt + |fmt| + |ChainBytes(chunks)| <= |b|
    requires b[FormatBodyAt + |fmt|..FormatBodyAt + |fmt| + |ChainBytes(chunks)|] == ChainBytes(chunks)
    requires b[FormatBodyAt + |fmt| + |ChainBytes(chunks)|..] == DataChunkBytes(payload) + trailer
    ensures ParseWav(b) == Ok(WavSound(fmt + Zeros(FormatRecordSize - |fmt|), payload))
  {
    var at := FormatBodyAt + |fmt|;
    var next := at + |ChainBytes(chunks)|;
    DataChunkFields(b, next, payload, trailer);
    FindDataSkipsChain(b, at, chunks);
    ParseWavAccepts(b, fmt, next + 4, payload);
  }

  /** Where the header, the chunks to skip and the data chunk sit in a built file. */
  lemma BuiltWavLayout(riffSize: nat, fmtId: seq<byte>, fmt: seq<byte>, chunks: seq<Chunk>,
                       payload: seq<byte>, trailer: seq<byte>)
    requires riffSize < Pow32 && |fmtId| == 4 && |fmt| <= FormatRecordSize && |payload| < Pow32
    requires AllSkippable(chunks)
    ensures var b := BuildWav(riffSize, fmtId, fmt, chunks, payload, trailer);
            var at := FormatBodyAt + |fmt|;
            var chain := ChainBytes(chunks);
            HeaderOk(b) && at + |chain| <= |b| && U32At(b, FormatSizeAt) == |fmt| &&
            b[FormatBodyAt..at] == fmt && b[at..at + |chain|] == chain &&
            b[at + |chain|..] == DataChunkBytes(payload) + trailer
  {
    var h, chain, d := HeaderBytes(riffSize, fmtId, fmt), ChainBytes(chunks), DataChunkBytes(payload) + trailer;
    var b := BuildWav(riffSize, fmtId, fmt, chunks, payload, trailer);
    assert b == h + chain + d;
    PartsOf(h, chain, d);
    HeaderFields(b, riffSize, fmtId, fmt);
  }

  /** Round trip: the loader recovers the format chunk's body, padded to the
      format record, and the data chunk's body, whatever the RIFF size, the
      format chunk's id, the chunks in between and the bytes after. */
  lemma ParseBuiltWav(riffSize: nat, fmtId: seq<byte>, fmt: seq<byte>, chunks: seq<Chunk>,
                      payload: seq<byte>, trailer: seq<byte>)
    requires riffSize < Pow32 && |fmtId| == 4 && |fmt| <= FormatRecordSize && |payload| < Pow32
    requires AllSkippable(chunks)
    ensures ParseWav(BuildWav(riffSize, fmtId, fmt, chunks, payload, trailer))
              == Ok(WavSound(fmt + Zeros(FormatRecordSize - |fmt|), payload))
  {
    var b := BuildWav(riffSize, fmtId, fmt, chunks, payload, trailer);
    BuiltWavLayout(riffSize, fmtId, fmt, chunks, payload, trailer);
    ParseLaidOut(b, fmt, chunks, payload, trailer);
  }

  // ---------------------------------------------------------------------------
  // The chunk scan as the source writes it, on a C++ input stream.

  /** An input stream: its position, and whether a read has failed.  Once failed,
      every read and skip leaves the stream and the destination untouched. */
  datatype Stream = Stream(pos: nat, failed: bool)

  /** `read` of |dst| bytes into dst: a short read stores what is left and fails. */
  function StreamRead(b: seq<byte>, s: Stream, dst: seq<byte>): (r: (Stream, seq<byte>))
    requires s.pos <= |b|
    ensures r.0.pos <= |b| && |r.1| == |dst|
    ensures s.failed ==> r == (s, dst)
    ensures !s.failed && s.pos + |dst| <= |b| ==> r == (Stream(s.pos + |dst|, false), b[s.pos..s.pos + |dst|])
    ensures !s.failed && s.pos + |dst| > |b| ==>
              r.0 == Stream(|b|, true) && r.1 == b[s.pos..] + dst[|b| - s.pos..]
  {
    if s.failed then (s, dst)
    else if s.pos + |dst| <= |b| then (Stream(s.pos + |dst|, false), b[s.pos..s.pos + |dst|])
    else (Stream(|b|, true), b[s.pos..] + dst[|b| - s.pos..])
  }

  /** `ignore(n)`: skipping past the end leaves the next read to fail, which the
      model records at once; after a skip exactly to the end the next read fails
      by itself. */
  function StreamIgnore(b: seq<byte>, s: Stream, n: nat): (r: Stream)
    requires s.pos <= |b|
    ensures r.pos <= |b|
    ensures s.failed ==> r == s
    ensures !s.failed && s.pos + n <= |b| ==> r == Stream(s.pos + n, false)
    ensures !s.failed && s.pos + n > |b| ==> r == Stream(|b|, true)
  {
    if s.failed then s
    else if s.pos + n <= |b| then Stream(s.pos + n, false)
    else Stream(|b|, true)
  }

  /** One pass of the source's chunk-scan loop body, entered with the chunk id
      just read: read the size, skip that many bytes, read the next id.  The
      size variable is uninitialised in the source; its value matters only when
      its read completes, and then it is the bytes read. */
  function ScanStepAsWritten(b: seq<byte>, s: Stream, chunkId: seq<byte>): (r: (Stream, seq<byte>))
    requires s.pos <= |b| && |chunkId| == 4
    ensures r.0.pos <= |b| && |r.1| == 4
  {
    var (s1, sizeBytes) := StreamRead(b, s, [0, 0, 0, 0]);
    var s2 := StreamIgnore(b, s1, U32At(sizeBytes, 0));
    StreamRead(b, s2, chunkId)
  }

  /** While the file has the bytes, a pass of the source's loop moves to the
      same next chunk as the model's scan. */
  lemma ScanStepAgreesWithFindData(b: seq<byte>, pos: nat)
    requires pos + 8 <= |b| && b[pos..pos + 4] != DataId
    requires pos + 12 + U32At(b, pos + 4) <= |b|
    ensures var next := pos + 8 + U32At(b, pos + 4);
            ScanStepAsWritten(b, Stream(pos + 4, false), b[pos..pos + 4])
              == (Stream(next + 4, false), b[next..next + 4]) &&
            FindData(b, pos) == FindData(b, next)
  {
    U32AtWindow(b, pos + 4, b[pos + 4..pos + 8]);
    IdAtSlice(b, pos, DataId);
    FindDataSkipsOne(b, pos);
  }

  /** Once the stream has failed, a pass of the loop changes nothing, so a loop
      whose chunk id is not "data" never ends. */
  lemma FailedScanNeverExits(b: seq<byte>, s: Stream, chunkId: seq<byte>)
    requires s.pos <= |b| && s.failed && |chunkId| == 4
    ensures ScanStepAsWritten(b, s, chunkId) == (s, chunkId)
  {
  }

  const FmtId: seq<byte> := [0x66, 0x6D, 0x74, 0x20]   // "fmt "
  const ListId: seq<byte> := [0x4C, 0x49, 0x53, 0x54]  // "LIST"

  /** A WAV file with an empty format chunk and an empty "LIST" chunk, and no
      "data" chunk. */
  const NoDataWav: seq<byte> :=
    RiffId + [20, 0, 0, 0] + WaveId + FmtId + [0, 0, 0, 0] + ListId + [0, 0, 0, 0]

  /** On NoDataWav the source's loop reads "LIST", skips its empty body, fails
      to read another id and from then on repeats itself with "LIST" as the id;
      the model refuses the file instead. */
  lemma MissingDataChunkSpins()
    ensures ParseWav(NoDataWav) == Err(NoDataChunk)
    ensures var (s, id) := ScanStepAsWritten(NoDataWav, Stream(24, false), ListId);
            s == Stream(|NoDataWav|, true) && id == ListId && id != DataId &&
            ScanStepAsWritten(NoDataWav, s, id) == (s, id)
  {
    var b := NoDataWav;
    assert |b| == 28;
    assert b[..4] == RiffId && b[8..12] == WaveId;
    assert U32At(b, FormatSizeAt) == 0;
    assert b[20..24] == ListId && ListId != DataId;
    assert U32At(b, 24) == 0;
    assert FindData(b, 20) == FindData(b, 28);
    assert ListId[0] != DataId[0];
    var (s1, sizeBytes) := StreamRead(b, Stream(24, false), [0, 0, 0, 0]);
    assert sizeBytes == b[24..28] && U32At(sizeBytes, 0) == 0;
  }

  const TornId: seq<byte> := [0x78, 0x78, 0x74, 0x61]  // "xxta"

  /** A WAV file with an empty format chunk and an empty "xxta" chunk, cut off
      after the two bytes "da". */
  const TornDataWav: seq<byte> :=
    RiffId + [22, 0, 0, 0] + WaveId + FmtId + [0, 0, 0, 0] + TornId + [0, 0, 0, 0] + [0x64, 0x61]

  /** On TornDataWav the source's last id read is short: it stores "da" over
      the first half of "xxta", the id becomes "data" and the loop ends.  The
      size read that follows fails and leaves the size zero, so the source
      accepts the file with an empty buffer; the model refuses it. */
  lemma TornIdEndsScan()
    ensures ParseWav(TornDataWav) == Err(NoDataChunk)
    ensures var (s, id) := ScanStepAsWritten(TornDataWav, Stream(24, false), TornId);
            s == Stream(|TornDataWav|, true) && id == DataId &&
            StreamRead(TornDataWav, s, [0, 0, 0, 0]) == (s, [0, 0, 0, 0]) &&
            U32At([0, 0, 0, 0], 0) == 0
  {
    var b := TornDataWav;
    assert |b| == 30;
    assert b[..4] == RiffId && b[8..12] == WaveId;
    assert U32At(b, FormatSizeAt) == 0;
    assert b[20..24] == TornId && TornId[0] != DataId[0];
    assert U32At(b, 24) == 0;
    assert FindData(b, 20) == FindData(b, 28);
    var (s1, sizeBytes) := StreamRead(b, Stream(24, false), [0, 0, 0, 0]);
    assert sizeBytes == b[24..28] && U32At(sizeBytes, 0) == 0;
    assert b[28..] + TornId[2..] == DataId;
  }

  /** The bytes the source stores from the start of the 18-byte format record:
      all fmt_size bytes of the format chunk the file has, with no bound. */
  function FormatCopyAsWritten(b: seq<byte>): (stored: seq<byte>)
    requires FormatBodyAt <= |b|
    ensures |stored| <= FormatSize(b)
    ensures FormatBodyAt + FormatSize(b) <= |b| ==> |stored| == FormatSize(b)
  {
    var n := FormatSize(b);
    if FormatBodyAt + n <= |b| then b[FormatBodyAt..FormatBodyAt + n] else b[FormatBodyAt..]
  }

  /** A WAVE_FORMAT_EXTENSIBLE file: a 40-byte format chunk, then an empty
      "data" chunk. */
  const ExtensibleWav: seq<byte> :=
    RiffId + [60, 0, 0, 0] + WaveId + FmtId + [40, 0, 0, 0] + Zeros(40) + DataId + [0, 0, 0, 0]

  /** The source writes 40 bytes into the 18-byte format record of an extensible
      file; the model refuses the file. */
  lemma ExtensibleFormatOverflows()
    ensures |FormatCopyAsWritten(ExtensibleWav)| == 40 > FormatRecordSize
    ensures ParseWav(ExtensibleWav) == Err(FormatTooLarge)
  {
    var b := ExtensibleWav;
    assert |b| == 68;
    assert b[..4] == RiffId && b[8..12] == WaveId;
    assert b[16..20] == [40, 0, 0, 0];
    assert U32At(b, FormatSizeAt) == 40;
  }
}
