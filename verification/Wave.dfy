/** The RIFF/WAVE reader of media_client.cpp (chapter 2 of the IBM/Microsoft Multimedia Programming
    Interface and Data Specifications 1.0) against files written chunk by chunk. */
module Wave {
  import opened Bytes
  import opened Wire

  // ---------- Little-endian numbers ----------

  function U16(s: bytes): nat
    requires |s| == 2
  {
    s[0] as int + 256 * s[1] as int
  }

  function U32(s: bytes): nat
    requires |s| == 4
  {
    s[0] as int + 256 * (s[1] as int + 256 * (s[2] as int + 256 * s[3] as int))
  }

  type u32 = n: nat | n < 0x1_0000_0000

  function Encode32(n: u32): (s: bytes)
    ensures |s| == 4
  {
    [(n % 256) as char, (n / 256 % 256) as char, (n / 0x1_0000 % 256) as char, (n / 0x100_0000) as char]
  }

  lemma Decode32(n: u32)
    ensures U32(Encode32(n)) == n
  {
    var a, b := n / 256, n / 0x1_0000;
    assert b == a / 256 && n / 0x100_0000 == b / 256;
    assert n == n % 256 + 256 * a && a == a % 256 + 256 * b && b == b % 256 + 256 * (b / 256);
  }

  // ---------- The reader ----------

  datatype Format = Format(tag: nat, channels: nat, rate: nat, bits: nat)

  /** What the chunks read so far have set; a later chunk overwrites an earlier one. */
  datatype Seen = Seen(format: Option<Format>, data: Option<bytes>)

  datatype Problem =
    | NotWave | HeaderCut | FormatCut | FormatShort | FormatUnpadded | DataCut | DataUnpadded | OtherUnpadded
    | NoFormat | NoSamples | WrongFormat | Unaligned

  datatype Outcome<+T> = Good(value: T) | Bad(problem: Problem)

  const RIFF: bytes := "RIFF"
  const WAVE: bytes := "WAVE"
  const FMT: bytes := "fmt "
  const DATA: bytes := "data"

  function FormatOf(data: bytes): Format
    requires |data| >= 16
  {
    Format(U16(data[..2]), U16(data[2..4]), U32(data[4..8]), U16(data[14..16]))
  }

  /** Behind a chunk of odd size comes one padding byte, which must be there. */
  function Padded(file: bytes, end: nat, size: nat): Option<nat> {
    if size % 2 == 0 then Some(end) else if end < |file| then Some(end + 1) else None
  }

  /** The chunk loop. Seeking past the end of the file is no error in itself. */
  function ReadChunks(file: bytes, at: nat, seen: Seen): Outcome<Seen>
    decreases |file| - at
  {
    if at >= |file| then Good(seen)
    else if at + 8 > |file| then Bad(HeaderCut)
    else
      var id, size := file[at..at + 4], U32(file[at + 4..at + 8]);
      var end := at + 8 + size;
      if id == FMT then
        if end > |file| then Bad(FormatCut)
        else if size < 16 then Bad(FormatShort)
        else
          match Padded(file, end, size)
          case None => Bad(FormatUnpadded)
          case Some(next) => ReadChunks(file, next, seen.(format := Some(FormatOf(file[at + 8..end]))))
      else if id == DATA then
        if end > |file| then Bad(DataCut)
        else
          match Padded(file, end, size)
          case None => Bad(DataUnpadded)
          case Some(next) => ReadChunks(file, next, seen.(data := Some(file[at + 8..end])))
      else
        match Padded(file, end, size)
        case None => Bad(OtherUnpadded)
        case Some(next) => ReadChunks(file, next, seen)
  }

  const PLAYABLE: Format := Format(1, 1, 48000, 16)

  /** What the chunks must add up to. */
  function Judge(seen: Seen): Outcome<bytes> {
    if seen.format.None? then Bad(NoFormat)
    else if seen.data.None? || seen.data.value == [] then Bad(NoSamples)
    else if seen.format.value != PLAYABLE then Bad(WrongFormat)
    else if |seen.data.value| % 2 != 0 then Bad(Unaligned)
    else Good(seen.data.value)
  }

  /** read_wav_payload */
  function ReadWave(file: bytes): Outcome<bytes> {
    if |file| < 12 || file[..4] != RIFF || file[8..12] != WAVE then Bad(NotWave)
    else
      match ReadChunks(file, 12, Seen(None, None))
      case Bad(problem) => Bad(problem)
      case Good(seen) => Judge(seen)
  }

  // ---------- The writer's side ----------

  datatype Chunk = Chunk(id: bytes, content: bytes)

  predicate Proper(c: Chunk) {
    |c.id| == 4 && |c.content| < 0x1_0000_0000
  }

  function Padding(n: nat): bytes {
    if n % 2 == 0 then [] else [0 as char]
  }

  function ChunkBytes(c: Chunk): bytes
    requires Proper(c)
  {
    c.id + Encode32(|c.content|) + c.content + Padding(|c.content|)
  }

  function ChunksBytes(cs: seq<Chunk>): bytes
    requires forall i :: 0 <= i < |cs| ==> Proper(cs[i])
  {
    if cs == [] then [] else ChunkBytes(cs[0]) + ChunksBytes(cs[1..])
  }

  predicate ShortFormat(c: Chunk) {
    c.id == FMT && |c.content| < 16
  }

  /** What a list of chunks sets, chunk by chunk. */
  function After(seen: Seen, c: Chunk): Seen {
    if c.id == FMT && |c.content| >= 16 then seen.(format := Some(FormatOf(c.content)))
    else if c.id == DATA then seen.(data := Some(c.content))
    else seen
  }

  function AfterAll(seen: Seen, cs: seq<Chunk>): Seen
    decreases |cs|
  {
    if cs == [] then seen else AfterAll(After(seen, cs[0]), cs[1..])
  }

  /** Reading one chunk at its place in the file. */
  lemma ReadOne(before: bytes, c: Chunk, rest: bytes, seen: Seen)
    requires Proper(c)
    ensures var file := before + ChunkBytes(c) + rest;
            ReadChunks(file, |before|, seen) ==
            if ShortFormat(c) then Bad(FormatShort)
            else ReadChunks(file, |before + ChunkBytes(c)|, After(seen, c))
  {
    hide U32, Encode32, FormatOf, ChunkBytes, ReadChunks;
    var file, at, n := before + ChunkBytes(c) + rest, |before|, |c.content|;
    Decode32(n);
    ChunkParts(before, c, rest);
    var end := at + 8 + n;
    assert Padded(file, end, n) == Some(end + n % 2);
    TagsDiffer();
    ReadStep(file, at, c.id, n, seen);
  }

  lemma TagsDiffer()
    ensures FMT != DATA
  {
    assert FMT[0] != DATA[0];
  }

  /** One round of the loop, with the chunk's header already taken apart. */
  lemma ReadStep(file: bytes, at: nat, id: bytes, size: nat, seen: Seen)
    requires at + 8 <= |file| && file[at..at + 4] == id && U32(file[at + 4..at + 8]) == size
    ensures var end := at + 8 + size;
            ReadChunks(file, at, seen) ==
            if id == FMT then
              if end > |file| then Bad(FormatCut)
              else if size < 16 then Bad(FormatShort)
              else if Padded(file, end, size).None? then Bad(FormatUnpadded)
              else ReadChunks(file, Padded(file, end, size).value, seen.(format := Some(FormatOf(file[at + 8..end]))))
            else if id == DATA then
              if end > |file| then Bad(DataCut)
              else if Padded(file, end, size).None? then Bad(DataUnpadded)
              else ReadChunks(file, Padded(file, end, size).value, seen.(data := Some(file[at + 8..end])))
            else if Padded(file, end, size).None? then Bad(OtherUnpadded)
            else ReadChunks(file, Padded(file, end, size).value, seen)
  {
    hide U32, FormatOf;
  }

  lemma ChunkParts(before: bytes, c: Chunk, rest: bytes)
    requires Proper(c)
    ensures var file, at, n := before + ChunkBytes(c) + rest, |before|, |c.content|;
            && |before + ChunkBytes(c)| == at + 8 + n + n % 2 <= |file|
            && file[at..at + 4] == c.id && file[at + 4..at + 8] == Encode32(n) && file[at + 8..at + 8 + n] == c.content
  {
    hide Encode32;
    var n := |c.content|;
    var tail := c.content + Padding(n) + rest;
    assert before + ChunkBytes(c) + rest == before + c.id + Encode32(n) + tail;
    HeaderParts(before, c.id, Encode32(n), tail);
    assert tail[..n] == c.content;
  }

  lemma HeaderParts(before: bytes, id: bytes, size: bytes, tail: bytes)
    requires |id| == |size| == 4
    ensures var file, at := before + id + size + tail, |before|;
            && |file| == at + 8 + |tail|
            && file[at..at + 4] == id && file[at + 4..at + 8] == size && file[at + 8..] == tail
  {
  }

  lemma {:induction false} ReadAll(before: bytes, cs: seq<Chunk>, seen: Seen)
    requires forall i :: 0 <= i < |cs| ==> Proper(cs[i])
    ensures ReadChunks(before + ChunksBytes(cs), |before|, seen) ==
            if exists i :: 0 <= i < |cs| && ShortFormat(cs[i]) then Bad(FormatShort) else Good(AfterAll(seen, cs))
    decreases |cs|
  {
    hide ReadChunks, ChunkBytes, After, ShortFormat;
    var file := before + ChunksBytes(cs);
    if cs == [] {
      ReadEnd(file, |before|, seen);
    } else {
      var next := before + ChunkBytes(cs[0]);
      assert file == next + ChunksBytes(cs[1..]);
      ReadOne(before, cs[0], ChunksBytes(cs[1..]), seen);
      if ShortFormat(cs[0]) {
      } else {
        ReadAll(next, cs[1..], After(seen, cs[0]));
        if exists i :: 0 <= i < |cs[1..]| && ShortFormat(cs[1..][i]) {
          var i :| 0 <= i < |cs[1..]| && ShortFormat(cs[1..][i]);
          assert ShortFormat(cs[i + 1]);
        }
      }
    }
  }

  lemma ReadEnd(file: bytes, at: nat, seen: Seen)
    requires at >= |file|
    ensures ReadChunks(file, at, seen) == Good(seen)
  {
  }

  /** The last chunk of its kind that counts. */
  function LastData(cs: seq<Chunk>): Option<bytes> {
    if cs == [] then None
    else if cs[|cs| - 1].id == DATA then Some(cs[|cs| - 1].content)
    else LastData(cs[..|cs| - 1])
  }

  function LastFormat(cs: seq<Chunk>): Option<Format> {
    if cs == [] then None
    else if cs[|cs| - 1].id == FMT && |cs[|cs| - 1].content| >= 16 then Some(FormatOf(cs[|cs| - 1].content))
    else LastFormat(cs[..|cs| - 1])
  }

  lemma {:induction false} AfterAllSnoc(seen: Seen, cs: seq<Chunk>, c: Chunk)
    ensures AfterAll(seen, cs + [c]) == After(AfterAll(seen, cs), c)
    decreases |cs|
  {
    hide After;
    if cs == [] {
      assert cs + [c] == [c] && [c][1..] == [];
    } else {
      assert (cs + [c])[1..] == cs[1..] + [c];
      AfterAllSnoc(After(seen, cs[0]), cs[1..], c);
    }
  }

  lemma {:induction false} LastOnesCount(cs: seq<Chunk>)
    ensures AfterAll(Seen(None, None), cs) == Seen(LastFormat(cs), LastData(cs))
  {
    if cs != [] {
      hide FormatOf;
      var n := |cs| - 1;
      assert cs == cs[..n] + [cs[n]];
      LastOnesCount(cs[..n]);
      AfterAllSnoc(Seen(None, None), cs[..n], cs[n]);
      assert FMT[0] != DATA[0];
    }
  }

  function RiffBytes(size: bytes, cs: seq<Chunk>): bytes
    requires |size| == 4 && forall i :: 0 <= i < |cs| ==> Proper(cs[i])
  {
    RIFF + size + WAVE + ChunksBytes(cs)
  }

  lemma RiffHeader(size: bytes, rest: bytes)
    requires |size| == 4
    ensures var file := RIFF + size + WAVE + rest;
            |RIFF + size + WAVE| == 12 && |file| >= 12 && file[..4] == RIFF && file[8..12] == WAVE
  {
    var file := RIFF + size + WAVE + rest;
    assert file == RIFF + (size + (WAVE + rest));
    assert file[4..] == size + (WAVE + rest);
    assert file[8..] == WAVE + rest;
  }

  /** WAVE reading: for every list of chunks, whatever the RIFF size field says, unknown chunks
      are skipped; the last data chunk is returned exactly when every fmt chunk has 16 bytes,
      the last one says PCM, mono, 48000 Hz, 16 bits, and the data is non-empty and even. */
  lemma WaveIsRead(size: bytes, cs: seq<Chunk>)
    requires |size| == 4 && forall i :: 0 <= i < |cs| ==> Proper(cs[i])
    ensures ReadWave(RiffBytes(size, cs)) ==
            if exists i :: 0 <= i < |cs| && ShortFormat(cs[i]) then Bad(FormatShort)
            else Judge(Seen(LastFormat(cs), LastData(cs)))
  {
    hide ReadChunks, ChunksBytes, ShortFormat, Judge;
    RiffHeader(size, ChunksBytes(cs));
    ReadAll(RIFF + size + WAVE, cs, Seen(None, None));
    LastOnesCount(cs);
  }

  /** The same as an equivalence on the result. */
  lemma WaveIsPlayableExactlyWhen(size: bytes, cs: seq<Chunk>, pcm: bytes)
    requires |size| == 4 && forall i :: 0 <= i < |cs| ==> Proper(cs[i])
    ensures ReadWave(RiffBytes(size, cs)) == Good(pcm) <==>
            && (forall i :: 0 <= i < |cs| && cs[i].id == FMT ==> |cs[i].content| >= 16)
            && LastFormat(cs) == Some(PLAYABLE)
            && LastData(cs) == Some(pcm) && pcm != [] && |pcm| % 2 == 0
  {
    hide ReadWave, RiffBytes, LastFormat, LastData;
    WaveIsRead(size, cs);
    assert (forall i :: 0 <= i < |cs| && cs[i].id == FMT ==> |cs[i].content| >= 16) <==>
           !exists i :: 0 <= i < |cs| && ShortFormat(cs[i]) by { NoShortFormat(cs); }
  }

  lemma NoShortFormat(cs: seq<Chunk>)
    ensures (forall i :: 0 <= i < |cs| && cs[i].id == FMT ==> |cs[i].content| >= 16) <==>
            !exists i :: 0 <= i < |cs| && ShortFormat(cs[i])
  {
    if i :| 0 <= i < |cs| && cs[i].id == FMT && |cs[i].content| < 16 {
      assert ShortFormat(cs[i]);
    }
  }

  /** Cutting a file off inside an unknown last chunk is noticed only if the chunk's size is
      odd: the reader seeks over the missing bytes, and only the padding byte is read. */
  lemma CutUnknownChunk(before: bytes, id: bytes, size: u32, part: bytes, seen: Seen)
    requires |id| == 4 && id != FMT && id != DATA && |part| < size
    ensures ReadChunks(before + id + Encode32(size) + part, |before|, seen) ==
            if size % 2 == 0 then Good(seen) else Bad(OtherUnpadded)
  {
    hide U32, Encode32, ReadChunks;
    Decode32(size);
    HeaderParts(before, id, Encode32(size), part);
    CutStep(before + id + Encode32(size) + part, |before|, id, size, seen);
  }

  lemma CutStep(file: bytes, at: nat, id: bytes, size: nat, seen: Seen)
    requires at + 8 <= |file| < at + 8 + size
    requires file[at..at + 4] == id && U32(file[at + 4..at + 8]) == size && id != FMT && id != DATA
    ensures ReadChunks(file, at, seen) == if size % 2 == 0 then Good(seen) else Bad(OtherUnpadded)
  {
    hide U32, ReadChunks;
    ReadStep(file, at, id, size, seen);
    if size % 2 == 0 {
      ReadEnd(file, at + 8 + size, seen);
    }
  }

  // ---------- Files as a recorder writes them ----------

  type u16le = n: nat | n < 0x1_0000

  function Encode16(n: u16le): (s: bytes)
    ensures |s| == 2
  {
    [(n % 256) as char, (n / 256) as char]
  }

  lemma Decode16(n: u16le)
    ensures U16(Encode16(n)) == n
  {
  }

  /** The content of a fmt chunk: tag, channels, rate, six bytes that are not looked at, bits per
      sample, and whatever follows. */
  function FormatContent(tag: u16le, channels: u16le, rate: u32, middle: bytes, bits: u16le, more: bytes): bytes {
    Encode16(tag) + Encode16(channels) + Encode32(rate) + middle + Encode16(bits) + more
  }

  lemma FormatIsRead(tag: u16le, channels: u16le, rate: u32, middle: bytes, bits: u16le, more: bytes)
    requires |middle| == 6
    ensures var content := FormatContent(tag, channels, rate, middle, bits, more);
            |content| == 16 + |more| && FormatOf(content) == Format(tag, channels, rate, bits)
  {
    hide Encode16, Encode32, U16, U32;
    var content := FormatContent(tag, channels, rate, middle, bits, more);
    Decode16(tag);
    Decode16(channels);
    Decode32(rate);
    Decode16(bits);
    assert content[..2] == Encode16(tag) && content[2..4] == Encode16(channels);
    assert content[4..8] == Encode32(rate) && content[14..16] == Encode16(bits);
  }

  /** A file of one fmt and one data chunk, with any other chunks around them, is read as its
      samples if and only if the numbers are those of 16-bit mono PCM at 48000 Hz and the data
      is neither empty nor odd; and otherwise this is the answer. */
  lemma RecordedFileIsRead(size: bytes, cs: seq<Chunk>, f: nat, d: nat, tag: u16le, channels: u16le, rate: u32,
                           middle: bytes, bits: u16le, more: bytes, pcm: bytes)
    requires |size| == 4 && |middle| == 6 && f < |cs| && d < |cs| && f != d
    requires forall i :: 0 <= i < |cs| ==>
                 Proper(cs[i]) && (cs[i].id == "fmt " <==> i == f) && (cs[i].id == "data" <==> i == d)
    requires cs[f].content == FormatContent(tag, channels, rate, middle, bits, more) && cs[d].content == pcm
    ensures var right := tag == 1 && channels == 1 && rate == 48000 && bits == 16;
            ReadWave(RiffBytes(size, cs)) ==
            if pcm == [] then Bad(NoSamples) else if !right then Bad(WrongFormat)
            else if |pcm| % 2 != 0 then Bad(Unaligned) else Good(pcm)
  {
    hide ReadWave, RiffBytes, FormatOf, FormatContent;
    WaveIsRead(size, cs);
    FormatIsRead(tag, channels, rate, middle, bits, more);
    OnlyFormat(cs, f);
    OnlyData(cs, d);
  }

  lemma {:induction false} OnlyFormat(cs: seq<Chunk>, f: nat)
    requires f < |cs| && |cs[f].content| >= 16
    requires forall i :: 0 <= i < |cs| ==> (cs[i].id == FMT <==> i == f)
    ensures LastFormat(cs) == Some(FormatOf(cs[f].content))
  {
    hide FormatOf;
    if f < |cs| - 1 {
      OnlyFormat(cs[..|cs| - 1], f);
    }
  }

  lemma {:induction false} OnlyData(cs: seq<Chunk>, d: nat)
    requires d < |cs|
    requires forall i :: 0 <= i < |cs| ==> (cs[i].id == DATA <==> i == d)
    ensures LastData(cs) == Some(cs[d].content)
  {
    if d < |cs| - 1 {
      OnlyData(cs[..|cs| - 1], d);
    }
  }

  /** A file without one of the two chunks is refused, the format being missed first. */
  lemma MissingChunks(size: bytes, cs: seq<Chunk>)
    requires |size| == 4 && forall i :: 0 <= i < |cs| ==> Proper(cs[i]) && (cs[i].id == FMT ==> |cs[i].content| >= 16)
    ensures (ReadWave(RiffBytes(size, cs)) == Bad(NoFormat) <==> forall i :: 0 <= i < |cs| ==> cs[i].id != "fmt ")
    ensures (forall i :: 0 <= i < |cs| ==> cs[i].id != "data") ==>
              ReadWave(RiffBytes(size, cs)) in {Bad(NoFormat), Bad(NoSamples)}
  {
    hide ReadWave, RiffBytes, FormatOf;
    WaveIsRead(size, cs);
    NoShortFormat(cs);
    SomeFormat(cs);
    SomeData(cs);
  }

  lemma {:induction false} SomeFormat(cs: seq<Chunk>)
    requires forall i :: 0 <= i < |cs| && cs[i].id == FMT ==> |cs[i].content| >= 16
    ensures LastFormat(cs).None? <==> forall i :: 0 <= i < |cs| ==> cs[i].id != FMT
  {
    if cs != [] {
      hide FormatOf;
      SomeFormat(cs[..|cs| - 1]);
      assert forall i | 0 <= i < |cs| - 1 :: cs[..|cs| - 1][i] == cs[i];
    }
  }

  lemma {:induction false} SomeData(cs: seq<Chunk>)
    ensures LastData(cs).None? <==> forall i :: 0 <= i < |cs| ==> cs[i].id != DATA
  {
    if cs != [] {
      SomeData(cs[..|cs| - 1]);
      assert forall i | 0 <= i < |cs| - 1 :: cs[..|cs| - 1][i] == cs[i];
    }
  }

  /** A file cut off inside a fmt or data chunk, or inside a chunk's header, is refused; and so is
      one that lacks the padding byte behind an odd chunk. */
  lemma CutKnownChunk(before: bytes, id: bytes, size: u32, part: bytes, seen: Seen)
    requires id == "fmt " || id == "data"
    requires |part| < size || (|part| == size && size % 2 == 1)
    ensures var r := ReadChunks(before + id + Encode32(size) + part, |before|, seen);
            r == if |part| < size then Bad(if id == "fmt " then FormatCut else DataCut)
                 else if id == "data" then Bad(DataUnpadded)
                 else if size < 16 then Bad(FormatShort) else Bad(FormatUnpadded)
  {
    hide U32, Encode32, ReadChunks, FormatOf;
    Decode32(size);
    HeaderParts(before, id, Encode32(size), part);
    TagsDiffer();
    ReadStep(before + id + Encode32(size) + part, |before|, id, size, seen);
  }

  lemma CutHeader(before: bytes, part: bytes, seen: Seen)
    requires 0 < |part| < 8
    ensures ReadChunks(before + part, |before|, seen) == Bad(HeaderCut)
  {
  }

  /** Only a file that begins as RIFF and WAVE say is looked at further. */
  lemma NotWaveExactly(file: bytes)
    ensures ReadWave(file) == Bad(NotWave) <==> |file| < 12 || file[..4] != "RIFF" || file[8..12] != "WAVE"
  {
    if |file| >= 12 && file[..4] == RIFF && file[8..12] == WAVE {
      ChunksAreNotHeaders(file, 12, Seen(None, None));
    }
  }

  lemma {:induction false} ChunksAreNotHeaders(file: bytes, at: nat, seen: Seen)
    ensures ReadChunks(file, at, seen) != Bad(NotWave)
    decreases |file| - at
  {
    hide U32, FormatOf;
    if at + 8 <= |file| {
      var id, size := file[at..at + 4], U32(file[at + 4..at + 8]);
      var end := at + 8 + size;
      var next := Padded(file, end, size);
      if next.Some? {
        if id == FMT {
          if end <= |file| && size >= 16 {
            ChunksAreNotHeaders(file, next.value, seen.(format := Some(FormatOf(file[at + 8..end]))));
          }
        } else if id == DATA {
          if end <= |file| {
            ChunksAreNotHeaders(file, next.value, seen.(data := Some(file[at + 8..end])));
          }
        } else {
          ChunksAreNotHeaders(file, next.value, seen);
        }
      }
    }
  }

  // ---------- The reader as written ----------

  /** read_wav_payload: one pass over the chunks that overwrites what it has seen. */
  method ReadWavePayload(file: bytes) returns (r: Outcome<bytes>)
    ensures r == ReadWave(file)
  {
    if |file| < 12 || file[..4] != RIFF || file[8..12] != WAVE {
      return Bad(NotWave);
    }
    hide Judge, FormatOf, U32, ReadChunks;
    var sawFormat, sawData := false, false;
    var format := Format(0, 0, 0, 0);
    var payload: bytes := [];
    var at := 12;
    while at < |file|
      invariant ReadChunks(file, 12, Seen(None, None)) ==
                ReadChunks(file, at, Seen(if sawFormat then Some(format) else None,
                  if sawData then Some(payload) else None))
      decreases |file| - at
    {
      ghost var seen := Seen(if sawFormat then Some(format) else None, if sawData then Some(payload) else None);
      if at + 8 > |file| {
        ReadCut(file, at, seen);
        return Bad(HeaderCut);
      }
      var id, size := file[at..at + 4], U32(file[at + 4..at + 8]);
      var end := at + 8 + size;
      if id == FMT {
        FormatStep(file, at, size, seen);
        if end > |file| {
          return Bad(FormatCut);
        }
        if size < 16 {
          return Bad(FormatShort);
        }
        format := FormatOf(file[at + 8..end]);
        sawFormat := true;
        var next := Padded(file, end, size);
        if next.None? {
          return Bad(FormatUnpadded);
        }
        at := next.value;
        continue;
      }
      if id == DATA {
        DataStep(file, at, size, seen);
        if end > |file| {
          return Bad(DataCut);
        }
        payload := file[at + 8..end];
        sawData := true;
        var next := Padded(file, end, size);
        if next.None? {
          return Bad(DataUnpadded);
        }
        at := next.value;
        continue;
      }
      OtherStep(file, at, id, size, seen);
      var next := Padded(file, end, size);
      if next.None? {
        return Bad(OtherUnpadded);
      }
      at := next.value;
    }
    ReadEnd(file, at, Seen(if sawFormat then Some(format) else None, if sawData then Some(payload) else None));
    r := JudgePayload(sawFormat, format, sawData, payload);
  }

  lemma FormatStep(file: bytes, at: nat, size: nat, seen: Seen)
    requires at + 8 <= |file| && file[at..at + 4] == FMT && U32(file[at + 4..at + 8]) == size
    ensures var end := at + 8 + size;
            ReadChunks(file, at, seen) ==
            if end > |file| then Bad(FormatCut)
            else if size < 16 then Bad(FormatShort)
            else if Padded(file, end, size).None? then Bad(FormatUnpadded)
            else ReadChunks(file, Padded(file, end, size).value, seen.(format := Some(FormatOf(file[at + 8..end]))))
  {
    hide U32, FormatOf, ReadChunks;
    ReadStep(file, at, FMT, size, seen);
  }

  lemma DataStep(file: bytes, at: nat, size: nat, seen: Seen)
    requires at + 8 <= |file| && file[at..at + 4] == DATA && U32(file[at + 4..at + 8]) == size
    ensures var end := at + 8 + size;
            ReadChunks(file, at, seen) ==
            if end > |file| then Bad(DataCut)
            else if Padded(file, end, size).None? then Bad(DataUnpadded)
            else ReadChunks(file, Padded(file, end, size).value, seen.(data := Some(file[at + 8..end])))
  {
    hide U32, FormatOf, ReadChunks;
    TagsDiffer();
    ReadStep(file, at, DATA, size, seen);
  }

  lemma OtherStep(file: bytes, at: nat, id: bytes, size: nat, seen: Seen)
    requires at + 8 <= |file| && file[at..at + 4] == id && U32(file[at + 4..at + 8]) == size
    requires id != FMT && id != DATA
    ensures var end := at + 8 + size;
            ReadChunks(file, at, seen) ==
            if Padded(file, end, size).None? then Bad(OtherUnpadded)
            else ReadChunks(file, Padded(file, end, size).value, seen)
  {
    hide U32, FormatOf, ReadChunks;
    ReadStep(file, at, id, size, seen);
  }

  lemma ReadCut(file: bytes, at: nat, seen: Seen)
    requires at < |file| < at + 8
    ensures ReadChunks(file, at, seen) == Bad(HeaderCut)
  {
  }

  method JudgePayload(sawFormat: bool, format: Format, sawData: bool, payload: bytes) returns (r: Outcome<bytes>)
    ensures r == Judge(Seen(if sawFormat then Some(format) else None, if sawData then Some(payload) else None))
  {
    if !sawFormat {
      return Bad(NoFormat);
    }
    if !sawData || payload == [] {
      return Bad(NoSamples);
    }
    if format.tag != 1 || format.channels != 1 || format.rate != 48000 || format.bits != 16 {
      return Bad(WrongFormat);
    }
    if |payload| % 2 != 0 {
      return Bad(Unaligned);
    }
    return Good(payload);
  }
}
