/** The state behind the mutex of media_bridge.cpp and what each locked block does to it. */
module MediaState {
  import opened Bytes
  import opened Wire
  import opened MediaFrames

  const MAX_OUTBOUND: nat := 256
  const MAX_QUEUED: nat := SAMPLE_RATE * 30

  /** History only: who put a frame on the outbound queue. */
  datatype Origin = FromReader(link: nat) | FromAcceptor(link: nat) | FromAudio | FromPublisher

  datatype Entry = Entry(frame: Frame, origin: Origin)

  /** History only: what became of the samples accepted since the last playback start. */
  datatype Ledger = Ledger(accepted: seq<Sample>, played: seq<Sample>, discarded: seq<Sample>)

  /** History only: the order in which "started" and "drained" frames were queued. */
  datatype Mark = MarkStarted | MarkDrained

  /** The fields of MediaBridgeState. `consumer` is `client_fd`, with a fresh number for every
      connection; `ledger` and `marks` are history. */
  datatype Server = Server(
    running: bool,
    path: bytes,
    consumer: Option<nat>,
    connected: bool,
    active: bool,
    stopRequested: bool,
    samples: seq<Sample>,
    outbound: seq<Entry>,
    speakers: map<bytes, Speaker>,
    droppedAudio: nat,
    droppedPlayback: nat,
    lastError: bytes,
    ledger: Ledger,
    marks: seq<Mark>)

  const INITIAL: Server :=
    Server(false, "", None, false, false, false, [], [], map[], 0, 0, "", Ledger([], [], []), [])

  // ---------- The locked blocks ----------

  /** enqueue_frame_locked */
  function Enqueue(s: Server, f: Frame, o: Origin): Server {
    if Droppable(f) && |s.outbound| >= MAX_OUTBOUND then s.(droppedAudio := s.droppedAudio + 1)
    else s.(outbound := s.outbound + [Entry(f, o)])
  }

  function StatusFrame(s: Server, at: int): Frame {
    Status(at, s.connected, s.active, |s.samples|, |s.speakers|, s.droppedAudio, s.droppedPlayback, s.lastError)
  }

  /** Record an error and tell the consumer. */
  function Refuse(s: Server, link: nat, at: int, code: bytes, message: bytes): Server {
    Enqueue(s.(lastError := message), ErrorFrame(at, code, message), FromReader(link))
  }

  /** Empty the queue without playing it. */
  function Wipe(s: Server): Server {
    s.(samples := [], active := false, stopRequested := false,
       ledger := s.ledger.(discarded := s.ledger.discarded + s.samples))
  }

  function BeginPlayback(s: Server, link: nat, at: int): Server {
    var begun := s.(active := true, stopRequested := false, samples := [],
                    ledger := Ledger([], [], []), marks := s.marks + [MarkStarted]);
    Enqueue(begun, PlaybackStarted(at), FromReader(link))
  }

  const INVALID_CHUNK: bytes := "invalid_chunk"
  const PLAYBACK_INACTIVE: bytes := "playback_inactive"
  const QUEUE_FULL: bytes := "queue_full"
  const QUEUE_FULL_MESSAGE: bytes := "playback queue is full"
  const BAD_REQUEST_MESSAGE: bytes := "invalid media bridge request"
  const UNKNOWN_REQUEST: bytes := "unsupported_request"
  const UNKNOWN_REQUEST_MESSAGE: bytes := "unsupported media bridge request"
  const DRAINED: bytes := "drained"
  const NOT_PLAYING: bytes := "inactive"
  const SIZE_MISMATCH: bytes :=
    "playback chunk payload size does " + "not match the declared frame count"
  const INACTIVE: bytes := "playback.start is required " + "before playback.chunk"

  /** `frames * sizeof(short)` in 64-bit arithmetic. */
  function DeclaredBytes(frames: u64): u64 {
    (frames * 2) % U64_LIMIT
  }

  function AcceptChunk(s: Server, link: nat, at: int, frames: u64, payload: buffer): Server {
    if |payload| != DeclaredBytes(frames) then Refuse(s, link, at, INVALID_CHUNK, SIZE_MISMATCH)
    else if !s.active then Refuse(s, link, at, PLAYBACK_INACTIVE, INACTIVE)
    else if |s.samples| + |payload| / 2 > MAX_QUEUED then
      Refuse(s.(droppedPlayback := s.droppedPlayback + 1), link, at, QUEUE_FULL, QUEUE_FULL_MESSAGE)
    else
      s.(samples := s.samples + Samples(payload),
         ledger := s.ledger.(accepted := s.ledger.accepted + Samples(payload)))
  }

  /** Playback ends because the queue ran dry; the consumer, if any, is told. */
  function Drain(s: Server, at: int, origin: Origin, tell: bool): Server {
    var done := s.(active := false, stopRequested := false);
    if tell then Enqueue(done.(marks := done.marks + [MarkDrained]), PlaybackStopped(at, DRAINED), origin)
    else done
  }

  function StopPlayback(s: Server, link: nat, at: int): Server {
    if !s.active then Enqueue(s, PlaybackStopped(at, NOT_PLAYING), FromReader(link))
    else if s.samples == [] then Drain(s, at, FromReader(link), true)
    else s.(stopRequested := true)
  }

  function ClearPlayback(s: Server, link: nat, at: int): Server {
    Enqueue(Wipe(s), PlaybackCleared(at), FromReader(link))
  }

  /** One command of the consumer, once decoded. A well-formed start asks the host to switch
      its capture device first, so its locked block comes later (BeginPlayback). */
  function Obey(s: Server, link: nat, at: int, c: Command): Server {
    match c
    case Malformed => Refuse(s, link, at, INVALID_REQUEST, BAD_REQUEST_MESSAGE)
    case StatusRequest => Enqueue(s, StatusFrame(s, at), FromReader(link))
    case Start => s
    case StartRejected(code, message) => Refuse(s, link, at, code, message)
    case Chunk(frames, payload) => AcceptChunk(s, link, at, frames, payload)
    case ChunkRejected(message) => Refuse(s, link, at, INVALID_REQUEST, message)
    case Stop => StopPlayback(s, link, at)
    case Clear => ClearPlayback(s, link, at)
    case Unknown => Refuse(s, link, at, UNKNOWN_REQUEST, UNKNOWN_REQUEST_MESSAGE)
  }

  function Min(a: nat, b: nat): nat {
    if a < b then a else b
  }

  function Silence(n: nat): (r: seq<Sample>)
    ensures |r| == n
    ensures forall i :: 0 <= i < n ==> r[i] == 0
  {
    if n == 0 then [] else [0] + Silence(n - 1)
  }

  /** The values a fill of `count` frames produces: queued samples, then silence. */
  function FillValues(queue: seq<Sample>, count: nat): (r: seq<Sample>)
    ensures |r| == count
  {
    var n := Min(count, |queue|);
    queue[..n] + Silence(count - n)
  }

  /** fill_playback_samples on the state: pop, and finish a requested stop on an empty queue. */
  function Fill(s: Server, count: nat, at: int): Server {
    if !s.active then s
    else
      var n := Min(count, |s.samples|);
      var popped := s.(samples := s.samples[n..],
                       ledger := s.ledger.(played := s.ledger.played + s.samples[..n]));
      if s.stopRequested && popped.samples == [] then Drain(popped, at, FromAudio, s.connected) else popped
  }

  function PublishStart(s: Server, at: int, sp: Speaker): Server {
    var known := s.(speakers := s.speakers[SpeakerKey(sp) := sp]);
    if s.connected then Enqueue(known, SpeakerStart(at, sp), FromPublisher) else known
  }

  function PublishStop(s: Server, at: int, sp: Speaker): Server {
    var known := s.(speakers := s.speakers - {SpeakerKey(sp)});
    if s.connected then Enqueue(known, SpeakerStop(at, sp), FromPublisher) else known
  }

  function PublishAudio(s: Server, f: Frame): Server
    requires f.AudioChunk?
  {
    if s.connected then Enqueue(s, f, FromPublisher) else s
  }

  /** The part of handle_client_disconnect under the lock: only the current consumer counts. */
  function Disconnect(s: Server, link: nat): Server {
    if s.consumer != Some(link) then s
    else Wipe(s.(connected := false, consumer := None, outbound := []))
  }

  // ---------- A new consumer ----------

  function SpeakerEntries(keys: seq<bytes>, speakers: map<bytes, Speaker>, link: nat, at: int): (r: seq<Entry>)
    requires forall k :: k in keys ==> k in speakers
    ensures |r| == |keys|
    ensures forall i :: 0 <= i < |r| ==> r[i] == Entry(SpeakerStart(at, speakers[keys[i]]), FromAcceptor(link))
  {
    if keys == [] then []
    else
      [Entry(SpeakerStart(at, speakers[keys[0]]), FromAcceptor(link))] + SpeakerEntries(keys[1..], speakers, link, at)
  }

  lemma {:induction false} SpeakerEntriesAppend(
      keys: seq<bytes>, k: bytes, speakers: map<bytes, Speaker>, link: nat, at: int)
    requires k in speakers && forall j :: j in keys ==> j in speakers
    ensures SpeakerEntries(keys + [k], speakers, link, at) ==
            SpeakerEntries(keys, speakers, link, at) + [Entry(SpeakerStart(at, speakers[k]), FromAcceptor(link))]
  {
    if keys != [] {
      assert (keys + [k])[1..] == keys[1..] + [k];
      SpeakerEntriesAppend(keys[1..], k, speakers, link, at);
    }
  }

  /** What every consumer is sent first: hello, status, then the active speakers. */
  ghost function Greeting(s: Server, link: nat, at: int): seq<Entry> {
    [Entry(Hello(at, s.path), FromAcceptor(link)), Entry(StatusFrame(s, at), FromAcceptor(link))] +
    SpeakerEntries(SortedKeys(s.speakers.Keys), s.speakers, link, at)
  }

  /** The installing block of accept_loop. */
  ghost function Install(s: Server, link: nat, at: int): Server {
    if s.connected then s
    else
      var t := s.(consumer := Some(link), connected := true, outbound := []);
      t.(outbound := Greeting(t, link, at))
  }

  /** The last block of MediaBridgeServer::stop, after the threads were joined. */
  function Shutdown(s: Server): Server {
    Wipe(s.(running := false, connected := false, consumer := None, outbound := [],
            speakers := map[], path := ""))
  }

  // ---------- All blocks as one set of operations ----------

  datatype Op =
    | OpRun(path: bytes)
    | OpInstall(link: nat, at: int)
    | OpObey(link: nat, at: int, command: Command)
    | OpBegin(link: nat, at: int)
    | OpBeginFailed(link: nat, at: int, code: bytes, message: bytes)
    | OpFill(count: nat, at: int)
    | OpSpeakerStart(at: int, speaker: Speaker)
    | OpSpeakerStop(at: int, speaker: Speaker)
    | OpAudio(at: int, speaker: Speaker, rate: int, channels: int, sampleCount: int, payload: buffer)
    | OpDisconnect(link: nat)
    | OpNote(message: bytes)
    | OpShutdown

  ghost function Do(s: Server, op: Op): Server {
    match op
    case OpRun(path) => if s.running then s else s.(running := true, path := path)
    case OpInstall(link, at) => Install(s, link, at)
    case OpObey(link, at, c) => Obey(s, link, at, c)
    case OpBegin(link, at) => BeginPlayback(s, link, at)
    case OpBeginFailed(link, at, code, message) => Refuse(s, link, at, code, message)
    case OpFill(count, at) => Fill(s, count, at)
    case OpSpeakerStart(at, sp) => PublishStart(s, at, sp)
    case OpSpeakerStop(at, sp) => PublishStop(s, at, sp)
    case OpAudio(at, sp, rate, channels, n, payload) =>
      PublishAudio(s, AudioChunk(at, sp, rate, channels, n, payload))
    case OpDisconnect(link) => Disconnect(s, link)
    case OpNote(message) => s.(lastError := message)
    case OpShutdown => Shutdown(s)
  }

  // ---------- What every block keeps ----------

  /** No accepted sample is lost, repeated or reordered. */
  predicate Conserved(s: Server) {
    && s.ledger.accepted == s.ledger.played + s.ledger.discarded + s.samples
    && (s.active ==> s.ledger.discarded == [])
  }

  /** Between two "drained" frames there is a "started" frame. */
  predicate Alternating(marks: seq<Mark>) {
    forall i, j :: 0 <= i < j < |marks| && marks[i] == marks[j] == MarkDrained ==>
      exists k :: i < k < j && marks[k] == MarkStarted
  }

  predicate LastDrained(marks: seq<Mark>) {
    marks != [] && marks[|marks| - 1] == MarkDrained
  }

  predicate Consistent(s: Server) {
    && (!s.active ==> s.samples == [] && !s.stopRequested)
    && (s.stopRequested ==> s.active && s.samples != [])
    && |s.samples| <= MAX_QUEUED
    && (s.connected <==> s.consumer.Some?)
    && (forall k :: k in s.speakers ==> SpeakerKey(s.speakers[k]) == k)
    && (LastDrained(s.marks) ==> !s.active)
    && Alternating(s.marks)
    && Conserved(s)
  }

  lemma MarkStart(marks: seq<Mark>)
    requires Alternating(marks)
    ensures Alternating(marks + [MarkStarted])
  {
    var longer := marks + [MarkStarted];
    forall i, j | 0 <= i < j < |longer| && longer[i] == longer[j] == MarkDrained
      ensures exists k :: i < k < j && longer[k] == MarkStarted
    {
      var k :| i < k < j && marks[k] == MarkStarted;
      assert longer[k] == MarkStarted;
    }
  }

  lemma MarkDrain(marks: seq<Mark>)
    requires Alternating(marks) && !LastDrained(marks)
    ensures Alternating(marks + [MarkDrained])
  {
    var longer := marks + [MarkDrained];
    forall i, j | 0 <= i < j < |longer| && longer[i] == longer[j] == MarkDrained
      ensures exists k :: i < k < j && longer[k] == MarkStarted
    {
      if j < |marks| {
        var k :| i < k < j && marks[k] == MarkStarted;
        assert longer[k] == MarkStarted;
      } else {
        assert longer[|marks| - 1] == MarkStarted;
      }
    }
  }

  lemma EnqueueKeepsConsistent(s: Server, f: Frame, o: Origin)
    requires Consistent(s)
    ensures Consistent(Enqueue(s, f, o))
  {
  }

  lemma RefuseKeepsConsistent(s: Server, link: nat, at: int, code: bytes, message: bytes)
    requires Consistent(s)
    ensures Consistent(Refuse(s, link, at, code, message))
  {
    assert Consistent(s.(lastError := message));
    EnqueueKeepsConsistent(s.(lastError := message), ErrorFrame(at, code, message), FromReader(link));
  }

  lemma ChunkKeepsConsistent(s: Server, link: nat, at: int, frames: u64, payload: buffer)
    requires Consistent(s)
    ensures Consistent(AcceptChunk(s, link, at, frames, payload))
  {
    var l := s.ledger;
    if |payload| != DeclaredBytes(frames) {
      RefuseKeepsConsistent(s, link, at, INVALID_CHUNK, SIZE_MISMATCH);
    } else if !s.active {
      RefuseKeepsConsistent(s, link, at, PLAYBACK_INACTIVE, INACTIVE);
    } else if |s.samples| + |payload| / 2 > MAX_QUEUED {
      assert Consistent(s.(droppedPlayback := s.droppedPlayback + 1));
      RefuseKeepsConsistent(s.(droppedPlayback := s.droppedPlayback + 1), link, at,
                            QUEUE_FULL, QUEUE_FULL_MESSAGE);
    } else {
      var added := Samples(payload);
      assert l.played + l.discarded + (s.samples + added) == l.played + l.discarded + s.samples + added;
    }
  }

  lemma FillKeepsConsistent(s: Server, count: nat, at: int)
    requires Consistent(s)
    ensures Consistent(Fill(s, count, at))
  {
    if s.active {
      var n := Min(count, |s.samples|);
      var l := s.ledger;
      assert l.discarded == [];
      assert l.played + [] + s.samples == l.played + s.samples;
      assert s.samples == s.samples[..n] + s.samples[n..];
      assert l.played + s.samples[..n] + [] + s.samples[n..] == l.played + s.samples;
      MarkDrain(s.marks);
    }
  }

  lemma WipeKeepsConsistent(s: Server)
    requires Consistent(s)
    ensures Consistent(Wipe(s))
  {
    var l := s.ledger;
    assert l.played + (l.discarded + s.samples) + [] == l.played + l.discarded + s.samples;
  }

  lemma StopKeepsConsistent(s: Server, link: nat, at: int)
    requires Consistent(s)
    ensures Consistent(StopPlayback(s, link, at))
  {
    if s.active { MarkDrain(s.marks); }
  }

  lemma ObeyKeepsConsistent(s: Server, link: nat, at: int, c: Command)
    requires Consistent(s)
    ensures Consistent(Obey(s, link, at, c))
  {
    match c
    case Malformed => RefuseKeepsConsistent(s, link, at, INVALID_REQUEST, BAD_REQUEST_MESSAGE);
    case StatusRequest => EnqueueKeepsConsistent(s, StatusFrame(s, at), FromReader(link));
    case Start =>
    case StartRejected(code, message) => RefuseKeepsConsistent(s, link, at, code, message);
    case Chunk(frames, payload) => ChunkKeepsConsistent(s, link, at, frames, payload);
    case ChunkRejected(message) => RefuseKeepsConsistent(s, link, at, INVALID_REQUEST, message);
    case Stop => StopKeepsConsistent(s, link, at);
    case Clear =>
      WipeKeepsConsistent(s);
      EnqueueKeepsConsistent(Wipe(s), PlaybackCleared(at), FromReader(link));
    case Unknown => RefuseKeepsConsistent(s, link, at, UNKNOWN_REQUEST, UNKNOWN_REQUEST_MESSAGE);
  }

  lemma BeginKeepsConsistent(s: Server, link: nat, at: int)
    requires Consistent(s)
    ensures Consistent(BeginPlayback(s, link, at))
  {
    MarkStart(s.marks);
  }

  lemma PublishKeepsConsistent(s: Server, at: int, sp: Speaker)
    requires Consistent(s)
    ensures Consistent(PublishStart(s, at, sp))
    ensures Consistent(PublishStop(s, at, sp))
  {
    assert Consistent(s.(speakers := s.speakers[SpeakerKey(sp) := sp]));
    assert Consistent(s.(speakers := s.speakers - {SpeakerKey(sp)}));
  }

  lemma ShutdownKeepsConsistent(s: Server)
    requires Consistent(s)
    ensures Consistent(Shutdown(s))
  {
    WipeKeepsConsistent(s.(running := false, connected := false, consumer := None, outbound := [],
                           speakers := map[], path := ""));
  }

  lemma DisconnectKeepsConsistent(s: Server, link: nat)
    requires Consistent(s)
    ensures Consistent(Disconnect(s, link))
  {
    if s.consumer == Some(link) {
      WipeKeepsConsistent(s.(connected := false, consumer := None, outbound := []));
    }
  }

  /** Playback invariant and sample conservation: every locked block, whichever thread runs
      it, leaves the state consistent. */
  lemma DoKeepsConsistent(s: Server, op: Op)
    requires Consistent(s)
    ensures Consistent(Do(s, op))
  {
    match op
    case OpRun(path) =>
    case OpInstall(link, at) =>
    case OpObey(link, at, c) => ObeyKeepsConsistent(s, link, at, c);
    case OpBegin(link, at) => BeginKeepsConsistent(s, link, at);
    case OpBeginFailed(link, at, code, message) => RefuseKeepsConsistent(s, link, at, code, message);
    case OpFill(count, at) => FillKeepsConsistent(s, count, at);
    case OpSpeakerStart(at, sp) => PublishKeepsConsistent(s, at, sp);
    case OpSpeakerStop(at, sp) => PublishKeepsConsistent(s, at, sp);
    case OpAudio(at, sp, rate, channels, n, payload) =>
    case OpDisconnect(link) => DisconnectKeepsConsistent(s, link);
    case OpNote(message) =>
    case OpShutdown => ShutdownKeepsConsistent(s);
  }

  /** Sample conservation at the end of a stop: a "drained" frame is queued by a stop only when
      everything accepted since the start has been played. */
  lemma DrainedMeansPlayed(s: Server, op: Op)
    requires Consistent(s)
    requires op.OpFill? || (op.OpObey? && op.command.Stop?)
    requires Do(s, op).marks != s.marks
    ensures Do(s, op).marks == s.marks + [MarkDrained]
    ensures Do(s, op).ledger.played == Do(s, op).ledger.accepted
    ensures |Do(s, op).outbound| == |s.outbound| + 1
    ensures var e := Do(s, op).outbound[|s.outbound|];
            e.frame == PlaybackStopped(op.at, DRAINED)
  {
    DoKeepsConsistent(s, op);
    var t := Do(s, op);
    assert t.samples == [] && t.ledger.discarded == [];
    assert t.ledger.played + [] + [] == t.ledger.played;
  }

  /** A chunk is either appended to the queue, exactly half as many samples as bytes, all of
      the payload; or a non-droppable error frame is queued and the samples are untouched. */
  lemma ChunkAcceptedOrRefused(s: Server, link: nat, at: int, frames: u64, payload: buffer)
    ensures var t := AcceptChunk(s, link, at, frames, payload);
            var fits := s.active && |payload| == DeclaredBytes(frames) && |s.samples| + |payload| / 2 <= MAX_QUEUED;
            if fits then
              && |payload| % 2 == 0
              && t.samples == s.samples + Samples(payload)
              && 2 * (|t.samples| - |s.samples|) == |payload|
              && t.outbound == s.outbound
            else
              && t.samples == s.samples && t.ledger == s.ledger && t.active == s.active
              && |t.outbound| == |s.outbound| + 1
              && t.outbound[..|s.outbound|] == s.outbound
              && t.outbound[|s.outbound|].frame.ErrorFrame?
              && !Droppable(t.outbound[|s.outbound|].frame)
  {
    assert DeclaredBytes(frames) % 2 == 0 by {
      assert U64_LIMIT == 2 * 0x8000_0000_0000_0000;
      assert DeclaredBytes(frames) == frames * 2 || DeclaredBytes(frames) == frames * 2 - U64_LIMIT;
    }
  }

  const HALF_LIMIT: nat := 0x8000_0000_0000_0000

  /** The size check is modulo 2^64: a payload passes it exactly when it is even and the declared
      count is half its size, or is too large by 2^63. */
  lemma SizeCheckExactly(frames: u64, payload: buffer)
    ensures |payload| == DeclaredBytes(frames) <==>
            |payload| % 2 == 0 && (frames == |payload| / 2 || frames == |payload| / 2 + HALF_LIMIT)
  {
    assert U64_LIMIT == 2 * HALF_LIMIT;
    assert DeclaredBytes(frames) == if frames < HALF_LIMIT then frames * 2 else frames * 2 - U64_LIMIT;
  }

  /** Of a chunk that is accepted the declared count is the number of samples it adds exactly
      when it is below 2^63, which can be read from the command; otherwise it is wrong by 2^63.
      A right count with room for it is always accepted. */
  lemma DeclaredCountRightExactly(s: Server, link: nat, at: int, frames: u64, payload: buffer)
    ensures var t := AcceptChunk(s, link, at, frames, payload);
            var added := |t.samples| - |s.samples|;
            && (t.outbound == s.outbound ==>
                  && (added == frames <==> frames < HALF_LIMIT)
                  && (added == frames || added + HALF_LIMIT == frames))
            && (s.active && |payload| == 2 * frames && |s.samples| + frames <= MAX_QUEUED ==>
                  t.outbound == s.outbound && added == frames)
  {
    SizeCheckExactly(frames, payload);
    ChunkAcceptedOrRefused(s, link, at, frames, payload);
  }

  /** An input on which the count is wrong: two bytes declared as 2^63 + 1 samples. */
  lemma DeclaredCountWraps(s: Server, link: nat, at: int, payload: buffer)
    requires s.active && |s.samples| < MAX_QUEUED && |payload| == 2
    ensures var t := AcceptChunk(s, link, at, 0x8000_0000_0000_0001, payload);
            t.samples == s.samples + Samples(payload) && |t.samples| == |s.samples| + 1 && t.outbound == s.outbound
  {
    SizeCheckExactly(0x8000_0000_0000_0001, payload);
    ChunkAcceptedOrRefused(s, link, at, 0x8000_0000_0000_0001, payload);
  }

  /** Why a consumer is told that playback stopped: the answer to a stop is "inactive" exactly
      when nothing plays, "drained" exactly when something plays and the queue is empty, and
      there is no answer yet exactly when samples are left. */
  lemma StopAnswer(s: Server, link: nat, at: int)
    ensures var t := StopPlayback(s, link, at);
            && (t.outbound == s.outbound + [Entry(PlaybackStopped(at, NOT_PLAYING), FromReader(link))] <==> !s.active)
            && (t.outbound == s.outbound + [Entry(PlaybackStopped(at, DRAINED), FromReader(link))] <==>
                  s.active && s.samples == [])
            && (t.outbound == s.outbound <==> s.active && s.samples != [])
  {
    var inactive := Entry(PlaybackStopped(at, NOT_PLAYING), FromReader(link));
    var drained := Entry(PlaybackStopped(at, DRAINED), FromReader(link));
    assert |NOT_PLAYING| != |DRAINED|;
    assert (s.outbound + [inactive])[|s.outbound|] == inactive;
    assert (s.outbound + [drained])[|s.outbound|] == drained;
  }

  lemma EnqueuedAt(s: Server, f: Frame, o: Origin, i: nat)
    requires |s.outbound| <= i < |Enqueue(s, f, o).outbound|
    ensures Enqueue(s, f, o).outbound[i] == Entry(f, o)
  {
  }

  lemma RefusedAt(s: Server, link: nat, at: int, code: bytes, message: bytes, i: nat)
    requires |s.outbound| <= i < |Refuse(s, link, at, code, message).outbound|
    ensures Refuse(s, link, at, code, message).outbound[i].frame.ErrorFrame?
  {
  }

  lemma ObeyReasons(s: Server, link: nat, at: int, c: Command, i: nat)
    requires |s.outbound| <= i < |Obey(s, link, at, c).outbound|
    ensures var f := Obey(s, link, at, c).outbound[i].frame;
            f.PlaybackStopped? ==> c.Stop? && f.reason == if s.active then DRAINED else NOT_PLAYING
  {
    hide Enqueue, Refuse, DeclaredBytes, Samples;
    match c
    case Malformed => RefusedAt(s, link, at, INVALID_REQUEST, BAD_REQUEST_MESSAGE, i);
    case StatusRequest => EnqueuedAt(s, StatusFrame(s, at), FromReader(link), i);
    case Start =>
    case StartRejected(code, message) => RefusedAt(s, link, at, code, message, i);
    case Chunk(frames, payload) =>
      hide AcceptChunk;
      ChunkAcceptedOrRefused(s, link, at, frames, payload);
    case ChunkRejected(message) => RefusedAt(s, link, at, INVALID_REQUEST, message, i);
    case Stop =>
      if !s.active {
        EnqueuedAt(s, PlaybackStopped(at, NOT_PLAYING), FromReader(link), i);
      } else if s.samples == [] {
        var done := s.(active := false, stopRequested := false, marks := s.marks + [MarkDrained]);
        EnqueuedAt(done, PlaybackStopped(at, DRAINED), FromReader(link), i);
      }
    case Clear => EnqueuedAt(Wipe(s), PlaybackCleared(at), FromReader(link), i);
    case Unknown => RefusedAt(s, link, at, UNKNOWN_REQUEST, UNKNOWN_REQUEST_MESSAGE, i);
  }

  predicate NoStops(es: seq<Entry>) {
    forall i :: 0 <= i < |es| ==> !es[i].frame.PlaybackStopped?
  }

  lemma EnqueueGrows(s: Server, f: Frame, o: Origin)
    ensures s.outbound <= Enqueue(s, f, o).outbound
  {
  }

  lemma RefuseGrows(s: Server, link: nat, at: int, code: bytes, message: bytes)
    ensures s.outbound <= Refuse(s, link, at, code, message).outbound
  {
  }

  lemma ObeyGrows(s: Server, link: nat, at: int, c: Command)
    ensures s.outbound <= Obey(s, link, at, c).outbound
  {
    hide Enqueue, Refuse, DeclaredBytes, Samples, StatusFrame, AcceptChunk, StopPlayback;
    match c
    case Malformed => RefuseGrows(s, link, at, INVALID_REQUEST, BAD_REQUEST_MESSAGE);
    case StatusRequest => EnqueueGrows(s, StatusFrame(s, at), FromReader(link));
    case Start =>
    case StartRejected(code, message) => RefuseGrows(s, link, at, code, message);
    case Chunk(frames, payload) => ChunkAcceptedOrRefused(s, link, at, frames, payload);
    case ChunkRejected(message) => RefuseGrows(s, link, at, INVALID_REQUEST, message);
    case Stop => StopAnswer(s, link, at);
    case Clear => EnqueueGrows(Wipe(s), PlaybackCleared(at), FromReader(link));
    case Unknown => RefuseGrows(s, link, at, UNKNOWN_REQUEST, UNKNOWN_REQUEST_MESSAGE);
  }

  lemma InstallStops(s: Server, link: nat, at: int)
    ensures Install(s, link, at) == s || NoStops(Install(s, link, at).outbound)
  {
    hide SortedKeys, StatusFrame;
    if !s.connected {
      var t := s.(consumer := Some(link), connected := true, outbound := []);
      assert StatusFrame(t, at).Status? by { StatusIsStatus(t, at); }
    }
  }

  lemma StatusIsStatus(s: Server, at: int)
    ensures StatusFrame(s, at).Status?
  {
  }

  lemma OthersGrow(s: Server, op: Op)
    requires !op.OpObey? && !op.OpInstall?
    ensures s.outbound <= Do(s, op).outbound || Do(s, op).outbound == []
  {
    hide Enqueue, StatusFrame;
    forall t: Server, f, o ensures t.outbound <= Enqueue(t, f, o).outbound {
      EnqueueGrows(t, f, o);
    }
  }

  lemma AddedStop(s: Server, op: Op, i: nat)
    requires |s.outbound| <= i < |Do(s, op).outbound| && Do(s, op).outbound[i].frame.PlaybackStopped?
    ensures var reason := Do(s, op).outbound[i].frame.reason;
            && (reason == DRAINED || reason == NOT_PLAYING)
            && (reason == NOT_PLAYING <==> op.OpObey? && op.command.Stop? && !s.active)
  {
    hide Obey, Install;
    ReasonsDiffer();
    match op
    case OpObey(link, at, c) => ObeyReasons(s, link, at, c, i);
    case OpInstall(link, at) => InstallStops(s, link, at);
    case _ => OthersDrain(s, op, i);
  }

  lemma ReasonsDiffer()
    ensures NOT_PLAYING != DRAINED
  {
    assert |NOT_PLAYING| != |DRAINED|;
  }

  lemma OthersDrain(s: Server, op: Op, i: nat)
    requires !op.OpObey? && !op.OpInstall?
    requires |s.outbound| <= i < |Do(s, op).outbound| && Do(s, op).outbound[i].frame.PlaybackStopped?
    ensures Do(s, op).outbound[i].frame.reason == DRAINED
  {
    hide Enqueue, Refuse, StatusFrame, Samples, DRAINED, SpeakerKey;
    match op
    case OpBegin(link, at) => BeginQueues(s, link, at, i);
    case OpBeginFailed(link, at, code, message) => RefusedAt(s, link, at, code, message, i);
    case OpFill(count, at) => FillQueues(s, count, at, i);
    case OpSpeakerStart(at, sp) =>
      EnqueuedAt(s.(speakers := s.speakers[SpeakerKey(sp) := sp]), SpeakerStart(at, sp), FromPublisher, i);
    case OpSpeakerStop(at, sp) =>
      EnqueuedAt(s.(speakers := s.speakers - {SpeakerKey(sp)}), SpeakerStop(at, sp), FromPublisher, i);
    case OpAudio(at, sp, rate, channels, n, payload) =>
      EnqueuedAt(s, AudioChunk(at, sp, rate, channels, n, payload), FromPublisher, i);
    case _ =>
  }

  lemma BeginQueues(s: Server, link: nat, at: int, i: nat)
    requires |s.outbound| <= i < |BeginPlayback(s, link, at).outbound|
    ensures BeginPlayback(s, link, at).outbound[i].frame.PlaybackStarted?
  {
  }

  lemma FillQueues(s: Server, count: nat, at: int, i: nat)
    requires |s.outbound| <= i < |Fill(s, count, at).outbound|
    ensures Fill(s, count, at).outbound[i].frame == PlaybackStopped(at, DRAINED)
  {
  }

  /** A block adds to the queue or empties it, or a newcomer's greeting takes its place. */
  lemma OutboundKept(s: Server, op: Op)
    ensures var t := Do(s, op);
            s.outbound <= t.outbound || t.outbound == [] || (op.OpInstall? && NoStops(t.outbound))
  {
    hide Obey, Install, NoStops;
    match op
    case OpObey(link, at, c) => ObeyGrows(s, link, at, c);
    case OpInstall(link, at) => InstallStops(s, link, at);
    case _ => OthersGrow(s, op);
  }

  /** No block of any thread gives another reason, and only a stop without playback gives
      "inactive": so it is with every frame that was not queued before, be it behind the old
      queue or in its place. */
  lemma StopReasons(s: Server, op: Op, i: nat)
    requires i < |Do(s, op).outbound| && Do(s, op).outbound[i].frame.PlaybackStopped?
    requires i < |s.outbound| ==> Do(s, op).outbound[i] != s.outbound[i]
    ensures var reason := Do(s, op).outbound[i].frame.reason;
            && (reason == DRAINED || reason == NOT_PLAYING)
            && (reason == NOT_PLAYING <==> op.OpObey? && op.command.Stop? && !s.active)
  {
    hide Do, DRAINED, NOT_PLAYING;
    OutboundKept(s, op);
    AddedStop(s, op, i);
  }

  // ---------- What each block does, in terms of the state alone ----------

  /** Audio is queued behind everything else, untouched, while fewer than 256 frames wait; with
      more it is counted as dropped; and without a consumer nothing happens. */
  lemma AudioQueuedOrDropped(s: Server, f: Frame)
    requires f.AudioChunk?
    ensures var t := PublishAudio(s, f);
            && (s.connected && |s.outbound| < 256 ==> t == s.(outbound := s.outbound + [Entry(f, FromPublisher)]))
            && (s.connected && |s.outbound| >= 256 ==> t == s.(droppedAudio := s.droppedAudio + 1))
            && (!s.connected ==> t == s)
  {
  }

  /** Every other kind of frame is queued behind everything else, however many wait. */
  lemma OthersAreNeverDropped(s: Server, f: Frame, o: Origin)
    requires !f.AudioChunk?
    ensures Enqueue(s, f, o) == s.(outbound := s.outbound + [Entry(f, o)])
  {
  }

  /** A speaker that starts is known from then on under its key and nobody else is affected; one
      that stops is forgotten; and a consumer, if there is one, is told. */
  lemma SpeakersAreKept(s: Server, at: int, sp: Speaker)
    ensures var t := PublishStart(s, at, sp);
            && SpeakerKey(sp) in t.speakers && t.speakers[SpeakerKey(sp)] == sp
            && (forall k :: k != SpeakerKey(sp) ==> (k in t.speakers <==> k in s.speakers))
            && (forall k :: k != SpeakerKey(sp) && k in s.speakers ==> t.speakers[k] == s.speakers[k])
            && t.outbound == s.outbound + (if s.connected then [Entry(SpeakerStart(at, sp), FromPublisher)] else [])
    ensures var t := PublishStop(s, at, sp);
            && SpeakerKey(sp) !in t.speakers
            && (forall k :: k != SpeakerKey(sp) ==> (k in t.speakers <==> k in s.speakers))
            && (forall k :: k != SpeakerKey(sp) && k in s.speakers ==> t.speakers[k] == s.speakers[k])
            && t.outbound == s.outbound + (if s.connected then [Entry(SpeakerStop(at, sp), FromPublisher)] else [])
  {
    hide SpeakerKey;
    assert s.outbound + [] == s.outbound;
  }

  /** The status frame that a consumer is sent, read by position, is the state at that moment. */
  lemma StatusTellsState(s: Server, link: nat, at: int)
    requires |s.samples| < U64_LIMIT && |s.speakers| < U64_LIMIT
    requires s.droppedAudio < U64_LIMIT && s.droppedPlayback < U64_LIMIT
    ensures var t := Obey(s, link, at, StatusRequest);
            && |t.outbound| == |s.outbound| + 1 && t.outbound[..|s.outbound|] == s.outbound
            && t == s.(outbound := t.outbound)
            && ReadStatus(FrameFields(t.outbound[|s.outbound|].frame)) ==
               Some(StatusReading(s.connected, s.active, |s.samples|, |s.speakers|,
                                  s.droppedAudio, s.droppedPlayback, s.lastError))
  {
    hide FrameFields, ReadStatus;
    StatusFrameReadable(StatusFrame(s, at));
  }

  /** One error frame is queued for this consumer, and the error is remembered. */
  predicate Told(s: Server, t: Server, link: nat, at: int, code: bytes) {
    && t.outbound == s.outbound + [Entry(ErrorFrame(at, code, t.lastError), FromReader(link))]
    && t == s.(outbound := t.outbound, lastError := t.lastError, droppedPlayback := t.droppedPlayback)
  }

  /** Which error a command is refused with, exactly. */
  lemma RefusalReasons(s: Server, link: nat, at: int, c: Command)
    ensures var t := Obey(s, link, at, c);
            && (c.Malformed? ==> Told(s, t, link, at, "invalid_request"))
            && (c.StartRejected? ==> Told(s, t, link, at, c.code) && t.lastError == c.message)
            && (c.ChunkRejected? ==> Told(s, t, link, at, "invalid_request") && t.lastError == c.message)
            && (c.Unknown? ==> Told(s, t, link, at, "unsupported_request"))
            && (!c.Chunk? ==> t.droppedPlayback == s.droppedPlayback)
  {
  }

  /** A chunk of the wrong size is told so first, then that nothing plays, then that the queue is
      full, which alone is counted. */
  lemma ChunkReasons(s: Server, link: nat, at: int, frames: u64, payload: buffer)
    ensures var t := Obey(s, link, at, Chunk(frames, payload));
            var sized := |payload| == frames * 2 % 0x1_0000_0000_0000_0000;
            var room := |s.samples| + |payload| / 2 <= 1440000;
            && (Told(s, t, link, at, "invalid_chunk") <==> !sized)
            && (Told(s, t, link, at, "playback_inactive") <==> sized && !s.active)
            && (Told(s, t, link, at, "queue_full") <==> sized && s.active && !room)
            && t.droppedPlayback == s.droppedPlayback + (if sized && s.active && !room then 1 else 0)
            && (sized && s.active && room ==> t.outbound == s.outbound && t.lastError == s.lastError)
  {
    hide Obey, Told;
    CodesDiffer();
    var t := Obey(s, link, at, Chunk(frames, payload));
    ChunkTold(s, link, at, frames, payload);
    OneCode(s, t, link, at, INVALID_CHUNK, PLAYBACK_INACTIVE);
    OneCode(s, t, link, at, INVALID_CHUNK, QUEUE_FULL);
    OneCode(s, t, link, at, PLAYBACK_INACTIVE, QUEUE_FULL);
  }

  lemma ChunkTold(s: Server, link: nat, at: int, frames: u64, payload: buffer)
    ensures var t := Obey(s, link, at, Chunk(frames, payload));
            if |payload| != frames * 2 % U64_LIMIT then
              Told(s, t, link, at, INVALID_CHUNK) && t.droppedPlayback == s.droppedPlayback
            else if !s.active then
              Told(s, t, link, at, PLAYBACK_INACTIVE) && t.droppedPlayback == s.droppedPlayback
            else if |s.samples| + |payload| / 2 > 1440000 then
              Told(s, t, link, at, QUEUE_FULL) && t.droppedPlayback == s.droppedPlayback + 1
            else t.outbound == s.outbound && t.lastError == s.lastError && t.droppedPlayback == s.droppedPlayback
  {
    hide Samples;
  }

  lemma OneCode(s: Server, t: Server, link: nat, at: int, a: bytes, b: bytes)
    ensures a != b ==> !(Told(s, t, link, at, a) && Told(s, t, link, at, b))
    ensures t.outbound == s.outbound ==> !Told(s, t, link, at, a) && !Told(s, t, link, at, b)
  {
    var n := |s.outbound|;
    if Told(s, t, link, at, a) {
      assert t.outbound[n].frame.code == a;
    }
    if Told(s, t, link, at, b) {
      assert t.outbound[n].frame.code == b;
    }
  }

  lemma CodesDiffer()
    ensures INVALID_CHUNK != PLAYBACK_INACTIVE && INVALID_CHUNK != QUEUE_FULL && PLAYBACK_INACTIVE != QUEUE_FULL
  {
    assert |INVALID_CHUNK| == 13 && |PLAYBACK_INACTIVE| == 17 && |QUEUE_FULL| == 10;
  }

  /** A start begins with an empty queue and an empty account; a clear leaves nothing playing and
      nothing queued; both answer with their own frame, and touch nothing else. */
  lemma StartAndClear(s: Server, link: nat, at: int)
    ensures BeginPlayback(s, link, at) ==
            s.(active := true, stopRequested := false, samples := [], ledger := Ledger([], [], []),
               marks := s.marks + [MarkStarted],
               outbound := s.outbound + [Entry(PlaybackStarted(at), FromReader(link))])
    ensures Obey(s, link, at, Clear) ==
            s.(active := false, stopRequested := false, samples := [],
               ledger := s.ledger.(discarded := s.ledger.discarded + s.samples),
               outbound := s.outbound + [Entry(PlaybackCleared(at), FromReader(link))])
  {
  }

  /** The current consumer's disconnect leaves nothing of it behind, and no one else's disconnect
      has any effect. */
  lemma DisconnectForgets(s: Server, link: nat)
    ensures var t := Disconnect(s, link);
            if s.consumer == Some(link) then
              && !t.connected && t.consumer.None? && t.outbound == []
              && !t.active && !t.stopRequested && t.samples == []
              && t.speakers == s.speakers && t.droppedAudio == s.droppedAudio && t.lastError == s.lastError
            else t == s
  {
  }

  /** A newcomer's queue, frame by frame: hello, the status with itself connected, and one start
      for each active speaker, in the order of the keys. */
  lemma GreetingMeans(s: Server, link: nat, at: int)
    requires !s.connected
    requires |s.samples| < U64_LIMIT && |s.speakers| < U64_LIMIT
    requires s.droppedAudio < U64_LIMIT && s.droppedPlayback < U64_LIMIT
    ensures var t, keys := Install(s, link, at), SortedKeys(s.speakers.Keys);
            && t == s.(consumer := Some(link), connected := true, outbound := t.outbound)
            && |t.outbound| == 2 + |keys|
            && t.outbound[0].frame == Hello(at, s.path)
            && ReadStatus(FrameFields(t.outbound[1].frame)) ==
               Some(StatusReading(true, s.active, |s.samples|, |s.speakers|,
                                  s.droppedAudio, s.droppedPlayback, s.lastError))
            && (forall i :: 0 <= i < |keys| ==> t.outbound[2 + i].frame == SpeakerStart(at, s.speakers[keys[i]]))
  {
    hide FrameFields, ReadStatus;
    var t := s.(consumer := Some(link), connected := true, outbound := []);
    StatusFrameReadable(StatusFrame(t, at));
  }

  /** A stopped bridge keeps its counters and its last error and forgets everything else. */
  lemma ShutdownForgets(s: Server)
    ensures var t := Shutdown(s);
            && !t.running && !t.connected && t.consumer.None? && t.path == [] && t.outbound == []
            && t.speakers == map[] && !t.active && !t.stopRequested && t.samples == []
            && t.droppedAudio == s.droppedAudio && t.droppedPlayback == s.droppedPlayback && t.lastError == s.lastError
  {
  }
}
