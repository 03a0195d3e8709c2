/** send_playback_file of media_client.cpp as it is written, loop by loop. Every write and every
    read is shown to be a move of the client program that the machine runs. */
module MediaClient {
  import opened Bytes
  import opened Wire
  import opened MediaFrames
  import opened MediaState
  import opened PlaybackTrack

  // ---------- What the whole program writes ----------

  function ChunksFrom(pcm: bytes, offset: nat): (cs: seq<Command>)
    requires offset <= |pcm|
    ensures forall c :: c in cs ==> Sendable(c)
    decreases |pcm| - offset
  {
    if offset == |pcm| then []
    else
      var n := Min(|pcm| - offset, CHUNK_BYTES);
      [Chunk(n / 2, pcm[offset..offset + n])] + ChunksFrom(pcm, offset + n)
  }

  function Script(clearFirst: bool, pcm: bytes): (cs: seq<Command>)
    ensures forall c :: c in cs ==> Sendable(c)
  {
    (if clearFirst then [Clear] else []) + [Start] + ChunksFrom(pcm, 0) + [Stop]
  }

  /** The chunks are the file, cut up. */
  lemma {:induction false} ChunksCoverFile(pcm: bytes, offset: nat)
    requires offset <= |pcm|
    ensures OnlyChunks(ChunksFrom(pcm, offset))
    ensures Payloads(ChunksFrom(pcm, offset)) == pcm[offset..]
    decreases |pcm| - offset
  {
    if offset < |pcm| {
      var n := Min(|pcm| - offset, CHUNK_BYTES);
      ChunksCoverFile(pcm, offset + n);
      assert pcm[offset..] == pcm[offset..offset + n] + pcm[offset + n..];
      assert ChunksFrom(pcm, offset)[1..] == ChunksFrom(pcm, offset + n);
    }
  }

  /** Ten milliseconds at a time: every chunk but the last has 960 bytes, and no chunk is empty. */
  lemma {:induction false} ChunkSizes(pcm: bytes, offset: nat, i: nat)
    requires offset <= |pcm| && i < |ChunksFrom(pcm, offset)|
    ensures var cs := ChunksFrom(pcm, offset);
            && cs[i].Chunk? && 1 <= |cs[i].payload| <= 960
            && (i < |cs| - 1 ==> |cs[i].payload| == 960)
    decreases i
  {
    var n := Min(|pcm| - offset, CHUNK_BYTES);
    if i > 0 {
      assert ChunksFrom(pcm, offset)[1..] == ChunksFrom(pcm, offset + n);
      ChunkSizes(pcm, offset + n, i - 1);
    }
  }

  predicate AllWellSized(cs: seq<Command>) {
    cs == [] || (cs[0].Chunk? && |cs[0].payload| == DeclaredBytes(cs[0].frames) && AllWellSized(cs[1..]))
  }

  /** A chunk declares its size correctly exactly when it holds whole samples; only the last
      chunk of a file with an odd number of bytes does not. */
  lemma {:induction false} ChunksAreWellSized(pcm: bytes, offset: nat)
    requires offset <= |pcm|
    ensures AllWellSized(ChunksFrom(pcm, offset)) <==> (|pcm| - offset) % 2 == 0
    decreases |pcm| - offset
  {
    if offset < |pcm| {
      hide DeclaredBytes;
      var n := Min(|pcm| - offset, CHUNK_BYTES);
      ChunksAreWellSized(pcm, offset + n);
      assert ChunksFrom(pcm, offset)[1..] == ChunksFrom(pcm, offset + n);
      assert n == CHUNK_BYTES || n == |pcm| - offset;
      HalfIsDeclared(n);
      Parity(|pcm| - offset, n);
    }
  }

  lemma HalfIsDeclared(n: nat)
    requires n <= CHUNK_BYTES
    ensures DeclaredBytes(n / 2) == n <==> n % 2 == 0
  {
    assert n / 2 * 2 < U64_LIMIT;
  }

  lemma Parity(whole: nat, part: nat)
    requires part <= whole && (part == CHUNK_BYTES || part == whole)
    ensures whole % 2 == 0 <==> part % 2 == 0 && (whole - part) % 2 == 0
  {
  }

  // ---------- What the program makes of the bytes it is sent ----------

  datatype Ear = Ear(pc: Pc, rest: bytes)

  /** Frames are read until the awaited one, an error, or the end of the stream. */
  function Listen(pc: Pc, input: bytes): Ear
    decreases |input|
  {
    ReadFrameShrinks(input);
    var read := ReadFrame(input);
    match read
    case FrameGot(fields, rest) =>
      if AfterRead(pc, read) == pc then Listen(pc, rest) else Ear(AfterRead(pc, read), rest)
    case _ => Ear(Failed, input)
  }

  /** Frames that happen to be there between two chunks are read and, unless they are errors,
      forgotten. */
  function Overhear(pc: Pc, input: bytes, count: nat): Ear
    requires pc.Streaming?
    decreases count
  {
    if count == 0 then Ear(pc, input)
    else
      match ReadFrame(input)
      case FrameGot(_, rest) => Overhear(pc, rest, count - 1)
      case _ => Ear(Failed, input)
  }

  predicate Awaits(pc: Pc, expected: bytes) {
    || (pc.AwaitCleared? && expected == CLEARED)
    || (pc.AwaitStarted? && expected == STARTED)
    || (pc.AwaitStopped? && expected == STOPPED)
  }

  /** The awaited frame is the one that moves the program on. */
  lemma AwaitedMoves(pc: Pc, expected: bytes, read: FrameRead)
    requires Awaits(pc, expected) && read.FrameGot? && |read.fields| >= 2
    ensures AfterRead(pc, read) != pc <==> read.fields[1] == expected
  {
  }

  class PlaybackClient {
    /** What the bridge still delivers before it closes or the time is up. */
    var incoming: bytes
    var outgoing: bytes
    ghost var pc: Pc
    ghost var pcm: bytes
    ghost var written: seq<Command>

    ghost predicate Valid()
      reads this
    {
      (forall c :: c in written ==> Sendable(c)) && outgoing == EncodeCommands(written)
    }

    constructor (stream: bytes, file: bytes, clearFirst: bool)
      ensures Valid() && incoming == stream && outgoing == [] && written == [] && pcm == file
      ensures pc == if clearFirst then ToClear else ToStart
    {
      incoming, outgoing := stream, [];
      pc, pcm, written := if clearFirst then ToClear else ToStart, file, [];
    }

    /** write_header and write_all: only the next command of the program may be written. */
    method Write(command: Command)
      requires Valid() && NextSend(pc, pcm).Send? && NextSend(pc, pcm).command == command
      modifies this`outgoing, this`pc, this`written
      ensures Valid() && written == old(written) + [command]
      ensures pc == NextSend(old(pc), pcm).next
    {
      hide EncodeCommand;
      EncodeCommandsAppend(written, [command]);
      assert EncodeCommands([command]) == EncodeCommand(command) + EncodeCommands([]);
      outgoing := outgoing + EncodeCommand(command);
      written := written + [command];
      pc := NextSend(pc, pcm).next;
    }

    method ReadExact(size: nat) returns (ok: bool)
      modifies this`incoming
      ensures ok <==> size <= |old(incoming)|
      ensures incoming == if ok then old(incoming)[size..] else old(incoming)
    {
      if |incoming| < size {
        return false;
      }
      incoming := incoming[size..];
      return true;
    }

    /** discard_payload: at most 4096 bytes at a time. */
    method DiscardPayload(size: nat) returns (ok: bool)
      modifies this`incoming
      ensures ok <==> size <= |old(incoming)|
      ensures ok ==> incoming == old(incoming)[size..]
    {
      var left := size;
      ghost var before := incoming;
      while left > 0
        invariant 0 <= left <= size
        invariant size - left <= |before| && incoming == before[size - left..]
      {
        var next := if left < 4096 then left else 4096;
        var read := ReadExact(next);
        if !read {
          return false;
        }
        assert before[size - left..][next..] == before[size - left + next..];
        left := left - next;
      }
      return true;
    }

    /** read_media_frame */
    method ReadMediaFrame() returns (read: FrameRead)
      modifies this`incoming
      ensures read == ReadFrame(old(incoming))
      ensures read.FrameGot? ==> incoming == read.rest
    {
      var line := ReadLineLoop(incoming);
      if line.NoLine? {
        return FrameIncomplete;
      }
      incoming := line.rest;
      var fields := SplitText(line.text, '\t');
      if |fields| < 2 || fields[0] != MAGIC {
        return FrameInvalid;
      }
      if fields[1] == AUDIO_CHUNK {
        var size := ParseU64(fields[|fields| - 1]);
        if size.None? {
          return FrameInvalid;
        }
        var discarded := DiscardPayload(size.value);
        if !discarded {
          return FrameIncomplete;
        }
        return FrameGot(fields, incoming);
      }
      if fields[1] == ERROR {
        return FrameRefused(DecodeMediaField(fields, 3, ERROR),
                            DecodeMediaField(fields, 4, "media bridge returned an error"), line.rest);
      }
      return FrameGot(fields, incoming);
    }

    /** wait_for_frame */
    method WaitForFrame(expected: bytes) returns (found: Option<Fields>)
      requires Awaits(pc, expected)
      modifies this`incoming, this`pc
      ensures Ear(pc, if found.Some? then incoming else Listen(old(pc), old(incoming)).rest) ==
              Listen(old(pc), old(incoming))
      ensures found.Some? <==> !pc.Failed?
      ensures found.Some? ==> |found.value| >= 2 && pc == AfterFrame(old(pc), found.value) && pc != old(pc)
    {
      ghost var start, stream := pc, incoming;
      while true
        invariant pc == start && Listen(start, incoming) == Listen(start, stream)
        decreases |incoming|
      {
        hide ReadFrame, Listen;
        ReadFrameShrinks(incoming);
        ListenStep(start, incoming);
        var read := ReadMediaFrame();
        if !read.FrameGot? {
          pc := Failed;
          return None;
        }
        AwaitedMoves(pc, expected, read);
        if read.fields[1] == expected {
          pc := AfterRead(pc, read);
          return Some(read.fields);
        }
      }
    }

    static lemma ListenStep(pc: Pc, input: bytes)
      ensures var read := ReadFrame(input);
              Listen(pc, input) ==
              if !read.FrameGot? then Ear(Failed, input)
              else if AfterRead(pc, read) == pc then Listen(pc, read.rest)
              else Ear(AfterRead(pc, read), read.rest)
    {
    }

    /** drain_ready_frames, when `ready` frames turn out to be there. */
    method DrainReadyFrames(ready: nat) returns (ok: bool)
      requires pc.Streaming?
      modifies this`incoming, this`pc
      ensures ok <==> pc == old(pc)
      ensures !ok ==> pc == Failed
      ensures pc == Overhear(old(pc), old(incoming), ready).pc
      ensures ok ==> incoming == Overhear(old(pc), old(incoming), ready).rest
    {
      ghost var start, stream := pc, incoming;
      for i := 0 to ready
        invariant pc == start
        invariant Overhear(start, stream, ready) == Overhear(start, incoming, ready - i)
      {
        hide ReadFrame;
        var read := ReadMediaFrame();
        if !read.FrameGot? {
          pc := Failed;
          return false;
        }
      }
      return true;
    }

    /** send_playback_clear and send_playback_start. */
    method Begin(clearFirst: bool) returns (ok: bool)
      requires Valid() && written == [] && pc == if clearFirst then ToClear else ToStart
      modifies this`incoming, this`outgoing, this`pc, this`written
      ensures Valid()
      ensures ok ==> pc == Streaming(0) && written == (if clearFirst then [Clear] else []) + [Start]
      ensures !ok ==> pc == Failed && written <= (if clearFirst then [Clear] else []) + [Start]
    {
      hide Listen, EncodeCommands;
      if clearFirst {
        Write(Clear);
        var cleared := WaitForFrame(CLEARED);
        if cleared.None? {
          return false;
        }
      }
      Write(Start);
      var started := WaitForFrame(STARTED);
      return started.Some?;
    }

    static lemma NoMoreChunks(file: bytes)
      ensures ChunksFrom(file, |file|) == []
    {
    }

    static lemma NextChunk(before: seq<Command>, file: bytes, offset: nat)
      requires offset < |file|
      ensures var n := Min(|file| - offset, CHUNK_BYTES);
              before + ChunksFrom(file, offset) ==
              before + [Chunk(n / 2, file[offset..offset + n])] + ChunksFrom(file, offset + n)
    {
    }

    /** The offset loop; `ready` says how many frames are there after each chunk. */
    method Stream(file: bytes, ready: nat -> nat) returns (ok: bool)
      requires Valid() && pcm == file && pc == Streaming(0)
      modifies this`incoming, this`outgoing, this`pc, this`written
      ensures Valid()
      ensures ok ==> pc == Streaming(|file|) && written == old(written) + ChunksFrom(file, 0)
      ensures !ok ==> pc == Failed && written <= old(written) + ChunksFrom(file, 0)
    {
      hide Overhear, EncodeCommands, ChunksFrom;
      var offset := 0;
      var round := 0;
      while offset < |file|
        invariant Valid() && offset <= |file| && pc == Streaming(offset)
        invariant written + ChunksFrom(file, offset) == old(written) + ChunksFrom(file, 0)
      {
        var n := if |file| - offset < CHUNK_BYTES then |file| - offset else CHUNK_BYTES;
        var chunk := Chunk(n / 2, file[offset..offset + n]);
        NextChunk(written, file, offset);
        Write(chunk);
        var drained := DrainReadyFrames(ready(round));
        if !drained {
          return false;
        }
        offset := offset + n;
        round := round + 1;
      }
      assert ChunksFrom(file, |file|) == [] by { NoMoreChunks(file); }
      assert written + [] == written;
      return true;
    }

    /** send_playback_file, once the file is read and the socket connected: it writes the
        program's script, all of it if it succeeds, and ends where the program ends. */
    method SendPlaybackFile(clearFirst: bool, file: bytes, ready: nat -> nat) returns (reason: Option<bytes>)
      requires Valid() && written == [] && pcm == file && pc == if clearFirst then ToClear else ToStart
      modifies this`incoming, this`outgoing, this`pc, this`written
      ensures reason.Some? ==> pc == Finished(reason.value) && outgoing == EncodeCommands(Script(clearFirst, file))
      ensures reason.None? ==> pc == Failed && Valid() && written <= Script(clearFirst, file)
    {
      hide Listen, EncodeCommands, ChunksFrom;
      var started := Begin(clearFirst);
      if !started {
        return None;
      }
      var streamed := Stream(file, ready);
      if !streamed {
        return None;
      }
      Write(Stop);
      var stopped := WaitForFrame(STOPPED);
      if stopped.None? {
        return None;
      }
      return Some(DecodeMediaField(stopped.value, 3, UNKNOWN_REASON));
    }
  }
}
