/** The playback client of media_client.cpp as a program over frames and commands, and the
    relation between it and the bridge that holds at every moment of a run. */
module PlaybackTrack {
  import opened Bytes
  import opened Wire
  import opened MediaFrames
  import opened MediaState

  // ---------- The client program (send_playback_file) ----------

  const CHUNK_BYTES: nat := SAMPLE_RATE / 100 * 2

  datatype Pc =
    | ToClear
    | AwaitCleared
    | ToStart
    | AwaitStarted
    | Streaming(offset: nat)
    | AwaitStopped
    | Finished(reason: bytes)
    | Failed

  /** What the client writes next, and where that takes it. */
  datatype Send = NothingToSend | Send(command: Command, next: Pc)

  function NextSend(pc: Pc, pcm: bytes): (r: Send)
    ensures r.Send? ==> Sendable(r.command)
  {
    match pc
    case ToClear => Send(Clear, AwaitCleared)
    case ToStart => Send(Start, AwaitStarted)
    case Streaming(offset) =>
      if offset < |pcm| then
        var n := Min(|pcm| - offset, CHUNK_BYTES);
        Send(Chunk(n / 2, pcm[offset..offset + n]), Streaming(offset + n))
      else Send(Stop, AwaitStopped)
    case _ => NothingToSend
  }

  predicate Listening(pc: Pc) {
    pc.AwaitCleared? || pc.AwaitStarted? || pc.Streaming? || pc.AwaitStopped?
  }

  const UNKNOWN_REASON: bytes := "unknown"

  /** What reading one frame does to the client (wait_for_frame, drain_ready_frames). */
  function AfterFrame(pc: Pc, fields: Fields): Pc
    requires |fields| >= 2
  {
    match pc
    case AwaitCleared => if fields[1] == CLEARED then ToStart else pc
    case AwaitStarted => if fields[1] == STARTED then Streaming(0) else pc
    case AwaitStopped =>
      if fields[1] == STOPPED then Finished(DecodeMediaField(fields, 3, UNKNOWN_REASON)) else pc
    case _ => pc
  }

  function AfterRead(pc: Pc, read: FrameRead): Pc {
    match read
    case FrameIncomplete => pc
    case FrameInvalid => Failed
    case FrameRefused(_, _, _) => Failed
    case FrameGot(fields, _) => if |fields| >= 2 then AfterFrame(pc, fields) else Failed
  }

  /** Only the awaited frame moves the client; a stop without a readable reason has an unknown one;
      an error or an unreadable frame is the end. */
  lemma FramesMove(pc: Pc, read: FrameRead)
    requires Listening(pc)
    ensures var next := AfterRead(pc, read);
            match read
            case FrameIncomplete => next == pc
            case FrameInvalid => next == Failed
            case FrameRefused(_, _, _) => next == Failed
            case FrameGot(fields, _) =>
              |fields| >= 2 ==>
                if pc.AwaitCleared? && fields[1] == "playback.cleared" then next == ToStart
                else if pc.AwaitStarted? && fields[1] == "playback.started" then next == Streaming(0)
                else if pc.AwaitStopped? && fields[1] == "playback.stopped" then
                  next == Finished(if |fields| > 3 && HexDecode(fields[3]).Ok? then HexDecode(fields[3]).value
                                   else "unknown")
                else next == pc
  {
    hide HexDecode;
  }

  /** The same on the frame itself. */
  function Hear(pc: Pc, f: Frame): Pc {
    if f.ErrorFrame? then Failed
    else
      match pc
      case AwaitCleared => if f.PlaybackCleared? then ToStart else pc
      case AwaitStarted => if f.PlaybackStarted? then Streaming(0) else pc
      case AwaitStopped => if f.PlaybackStopped? then Finished(f.reason) else pc
      case _ => pc
  }

  /** Reading the bytes of a frame is hearing the frame. */
  lemma ReadIsHear(pc: Pc, f: Frame, rest: bytes)
    ensures AfterRead(pc, ReadFrame(EncodeFrame(f) + rest)) == Hear(pc, f)
  {
    ReadFrameExact(f, rest);
    if !f.ErrorFrame? {
      ReadFrameLine(f, rest);
      FrameTypes(f);
      if f.PlaybackStopped? {
        assert FrameItems(f)[3] == Hex(f.reason);
        HexRoundTrip(f.reason);
      }
    }
  }

  // ---------- One client's playback, seen from outside ----------

  /** `pipe` holds the frames on their way to the client, `commands` those on their way to the
      bridge. `open` says the client is the connected consumer; only then is anything added
      to the pipe. The other fields are the bridge's. */
  datatype Track = Track(
    pc: Pc,
    pcm: bytes,
    pipe: seq<Frame>,
    commands: seq<Command>,
    activating: bool,
    open: bool,
    active: bool,
    stopRequested: bool,
    queued: seq<Sample>,
    ledger: Ledger)

  predicate NoStarted(fs: seq<Frame>) {
    forall i :: 0 <= i < |fs| ==> !fs[i].PlaybackStarted?
  }

  predicate NoStopped(fs: seq<Frame>) {
    forall i :: 0 <= i < |fs| ==> !fs[i].PlaybackStopped?
  }

  predicate NoCleared(fs: seq<Frame>) {
    forall i :: 0 <= i < |fs| ==> !fs[i].PlaybackCleared?
  }

  predicate ErrorAt(fs: seq<Frame>, i: nat) {
    i < |fs| && fs[i].ErrorFrame? && NoStopped(fs[..i])
  }

  /** The client can no longer hear a "playback.stopped": an error comes first, or the
      connection is closed and none is on its way. */
  ghost predicate Doomed(t: Track) {
    (exists i: nat :: ErrorAt(t.pipe, i)) || (!t.open && NoStopped(t.pipe))
  }

  predicate BeforeStart(t: Track) {
    NoStarted(t.pipe) && (!t.open || (t.commands == [Start] && !t.activating) || t.commands == [])
  }

  predicate StartedAt(t: Track, i: nat) {
    i < |t.pipe| && t.pipe[i].PlaybackStarted? && NoStarted(t.pipe[..i]) && NoStopped(t.pipe[i + 1..])
  }

  ghost predicate JustStarted(t: Track) {
    && (exists i: nat :: StartedAt(t, i))
    && t.commands == [] && !t.activating
    && (t.open ==> t.active && !t.stopRequested && t.ledger == Ledger([], [], []) && t.queued == [])
  }

  predicate OnlyChunks(cs: seq<Command>) {
    forall i :: 0 <= i < |cs| ==> cs[i].Chunk? && cs[i].frames == |cs[i].payload| / 2
  }

  function Payloads(cs: seq<Command>): bytes
    requires OnlyChunks(cs)
  {
    if cs == [] then [] else cs[0].payload + Payloads(cs[1..])
  }

  /** The accepted samples and the chunks still on their way make up the file's first
      `offset` bytes. */
  predicate Complement(t: Track, chunks: seq<Command>, offset: nat) {
    && OnlyChunks(chunks)
    && |Payloads(chunks)| <= offset <= |t.pcm|
    && var done := offset - |Payloads(chunks)|;
       && done % 2 == 0
       && Payloads(chunks) == t.pcm[done..offset]
       && t.ledger.accepted == Samples(t.pcm[..done])
  }

  predicate Running(t: Track) {
    t.open && NoStopped(t.pipe) && t.active && !t.activating && t.ledger.discarded == []
  }

  predicate StopOnItsWay(t: Track) {
    && Running(t) && !t.stopRequested
    && t.commands != [] && t.commands[|t.commands| - 1] == Stop
    && Complement(t, t.commands[..|t.commands| - 1], |t.pcm|)
  }

  predicate StopPending(t: Track) {
    Running(t) && t.stopRequested && t.commands == [] && |t.pcm| % 2 == 0 && t.ledger.accepted == Samples(t.pcm)
  }

  /** All of the file, and nothing else, has been played since the start; and nothing that
      could change that is under way. */
  predicate Settled(t: Track) {
    t.commands == [] && !t.activating && !t.active && |t.pcm| % 2 == 0 && t.ledger.played == Samples(t.pcm)
  }

  predicate DrainedAt(t: Track, i: nat) {
    && i < |t.pipe| && t.pipe[i].PlaybackStopped? && t.pipe[i].reason == DRAINED
    && NoStopped(t.pipe[..i])
  }

  ghost predicate DrainedOnItsWay(t: Track) {
    Settled(t) && exists i: nat :: DrainedAt(t, i)
  }

  ghost predicate OnTrack(t: Track) {
    match t.pc
    case ToClear => NoStarted(t.pipe) && NoCleared(t.pipe) && t.commands == [] && !t.activating
    case AwaitCleared =>
      && NoStarted(t.pipe) && !t.activating
      && (t.commands == [] || (t.commands == [Clear] && NoCleared(t.pipe)))
    case ToStart => NoStarted(t.pipe) && t.commands == [] && !t.activating
    case AwaitStarted => BeforeStart(t) || JustStarted(t)
    case Streaming(offset) =>
      offset <= |t.pcm| && (Doomed(t) || (Running(t) && !t.stopRequested && Complement(t, t.commands, offset)))
    case AwaitStopped => Doomed(t) || StopOnItsWay(t) || StopPending(t) || DrainedOnItsWay(t)
    case Finished(reason) => reason == DRAINED && Settled(t)
    case Failed => true
  }

  // ---------- The client beside the bridge state ----------

  /** The client's side: its program, the frames written to it and not yet read, the commands
      it wrote that the bridge has not taken, and whether its start is being carried out. */
  datatype Side = Side(pc: Pc, pcm: bytes, written: seq<Frame>, commands: seq<Command>, activating: bool, id: nat)

  function FramesOf(es: seq<Entry>): (r: seq<Frame>)
    ensures |r| == |es|
    ensures forall i :: 0 <= i < |es| ==> r[i] == es[i].frame
  {
    if es == [] then [] else [es[0].frame] + FramesOf(es[1..])
  }

  predicate Open(s: Server, id: nat) {
    s.connected && s.consumer == Some(id)
  }

  function Watch(c: Side, s: Server): Track {
    Track(c.pc, c.pcm, if Open(s, c.id) then c.written + FramesOf(s.outbound) else c.written,
          c.commands, c.activating, Open(s, c.id), s.active, s.stopRequested, s.samples, s.ledger)
  }

  /** A client whose connection has been replaced by a later one. */
  function WatchPast(c: Side, ledger: Ledger): Track {
    Track(c.pc, c.pcm, c.written, c.commands, c.activating, false, false, false, [], ledger)
  }

  lemma FramesAppend(c: Side, s: Server, f: Frame, o: Origin)
    ensures FramesOf(s.outbound + [Entry(f, o)]) == FramesOf(s.outbound) + [f]
    ensures c.written + FramesOf(s.outbound + [Entry(f, o)]) == c.written + FramesOf(s.outbound) + [f]
  {
  }

  // ---------- What each kind of step does to the relation ----------

  predicate Harmless(f: Frame) {
    !f.PlaybackStarted? && !f.PlaybackStopped? && !f.PlaybackCleared?
  }

  /** Closing the connection loses the frames that were not yet written. A closed connection
      stays related whatever the bridge does, unless playback was settled and gets unsettled. */
  lemma TrackCloses(t: Track, u: Track)
    requires OnTrack(t) && u.pipe <= t.pipe && !u.open
    requires u.pc == t.pc && u.pcm == t.pcm && u.commands == t.commands && u.activating == t.activating
    requires Settled(t) ==> Settled(u)
    ensures OnTrack(u)
  {
    if t.pc.AwaitStarted? && JustStarted(t) {
      var i: nat :| StartedAt(t, i);
      if i < |u.pipe| {
        assert u.pipe[..i] == t.pipe[..i];
        assert u.pipe[i + 1..] == t.pipe[i + 1..][..|u.pipe| - i - 1];
        assert StartedAt(u, i);
      } else {
        assert u.pipe == t.pipe[..i][..|u.pipe|];
      }
    } else if t.pc.Streaming? || t.pc.AwaitStopped? {
      if Doomed(t) {
        DoomStays(t, u);
      } else if t.pc.AwaitStopped? && DrainedOnItsWay(t) {
        var i: nat :| DrainedAt(t, i);
        if i < |u.pipe| {
          assert u.pipe[..i] == t.pipe[..i];
          assert DrainedAt(u, i);
        } else {
          assert u.pipe == t.pipe[..i][..|u.pipe|];
        }
      }
    }
  }

  lemma DoomStays(t: Track, u: Track)
    requires Doomed(t) && u.pipe <= t.pipe && (!u.open || (u.pipe == t.pipe && t.open))
    ensures Doomed(u)
  {
    if i: nat :| ErrorAt(t.pipe, i) {
      if i < |u.pipe| {
        assert u.pipe[..i] == t.pipe[..i];
        assert ErrorAt(u.pipe, i);
      } else {
        assert u.pipe == t.pipe[..i][..|u.pipe|];
      }
    }
  }

  lemma DoomGrows(t: Track, u: Track, f: Frame)
    requires Doomed(t) && t.open && u.pipe == t.pipe + [f]
    ensures Doomed(u)
  {
    var i: nat :| ErrorAt(t.pipe, i);
    assert u.pipe[..i] == t.pipe[..i];
    assert ErrorAt(u.pipe, i);
  }

  lemma ErrorDooms(t: Track, u: Track, f: Frame)
    requires NoStopped(t.pipe) && f.ErrorFrame? && u.pipe == t.pipe + [f]
    ensures Doomed(u)
  {
    assert u.pipe[..|t.pipe|] == t.pipe;
    assert ErrorAt(u.pipe, |t.pipe|);
  }

  lemma DrainArrives(t: Track, u: Track, f: Frame)
    requires NoStopped(t.pipe) && u.pipe == t.pipe + [f] && f.PlaybackStopped? && f.reason == DRAINED
    requires Settled(u)
    ensures DrainedOnItsWay(u)
  {
    assert u.pipe[..|t.pipe|] == t.pipe;
    assert DrainedAt(u, |t.pipe|);
  }

  /** Frames from publishers, and error frames, do not disturb the relation. */
  lemma HarmlessFrame(c: Side, s: Server, f: Frame, o: Origin)
    requires OnTrack(Watch(c, s)) && Harmless(f)
    ensures OnTrack(Watch(c, Enqueue(s, f, o)))
  {
    var t, u := Watch(c, s), Watch(c, Enqueue(s, f, o));
    FramesAppend(c, s, f, o);
    if t.open && u != t {
      HarmlessArrives(t, f);
      assert u == t.(pipe := t.pipe + [f]);
    }
  }

  lemma HarmlessArrives(t: Track, f: Frame)
    requires OnTrack(t) && t.open && Harmless(f)
    ensures OnTrack(t.(pipe := t.pipe + [f]))
  {
    var u := t.(pipe := t.pipe + [f]);
    match t.pc
    case AwaitStarted =>
      if JustStarted(t) { StartedGrows(t, u, f); }
    case Streaming(_) =>
      if Doomed(t) { DoomGrows(t, u, f); }
    case AwaitStopped =>
      if Doomed(t) {
        DoomGrows(t, u, f);
      } else if DrainedOnItsWay(t) {
        DrainedGrows(t, u, f);
      }
    case _ =>
  }

  lemma StartedGrows(t: Track, u: Track, f: Frame)
    requires JustStarted(t) && Harmless(f) && u == t.(pipe := t.pipe + [f])
    ensures JustStarted(u)
  {
    var i: nat :| StartedAt(t, i);
    assert u.pipe[..i] == t.pipe[..i];
    assert u.pipe[i + 1..] == t.pipe[i + 1..] + [f];
    assert StartedAt(u, i);
  }

  lemma DrainedGrows(t: Track, u: Track, f: Frame)
    requires DrainedOnItsWay(t) && u == t.(pipe := t.pipe + [f])
    ensures DrainedOnItsWay(u)
  {
    var i: nat :| DrainedAt(t, i);
    assert u.pipe[..i] == t.pipe[..i];
    assert DrainedAt(u, i);
  }

  /** The audio thread pops samples. */
  lemma FillOnTrack(c: Side, s: Server, count: nat, at: int)
    requires OnTrack(Watch(c, s)) && Consistent(s)
    ensures OnTrack(Watch(c, Fill(s, count, at)))
  {
    var t, u := Watch(c, s), Watch(c, Fill(s, count, at));
    if s.active {
      var n := Min(count, |s.samples|);
      var ends := s.stopRequested && s.samples[n..] == [];
      if !ends {
        PopOnTrack(t, u, n);
      } else {
        FramesAppend(c, s, PlaybackStopped(at, DRAINED), FromAudio);
        DrainedByFill(t, u, at);
      }
    }
  }

  lemma PopOnTrack(t: Track, u: Track, n: nat)
    requires OnTrack(t) && t.active && n <= |t.queued|
    requires u == t.(queued := t.queued[n..], ledger := t.ledger.(played := t.ledger.played + t.queued[..n]))
    ensures OnTrack(u)
  {
    if t.pc.AwaitStarted? && JustStarted(t) {
      var i: nat :| StartedAt(t, i);
      assert StartedAt(u, i);
    } else if t.pc.Streaming? || t.pc.AwaitStopped? {
      if Doomed(t) { DoomStays(t, u); }
    }
  }

  lemma DrainedByFill(t: Track, u: Track, at: int)
    requires OnTrack(t) && t.active && t.stopRequested
    requires u == t.(pipe := if t.open then t.pipe + [PlaybackStopped(at, DRAINED)] else t.pipe,
                     active := false, stopRequested := false, queued := u.queued, ledger := u.ledger)
    requires t.ledger.discarded == [] && u.ledger.played == t.ledger.accepted
    ensures OnTrack(u)
  {
    var f := PlaybackStopped(at, DRAINED);
    if t.pc.AwaitStarted? && JustStarted(t) {
      var i: nat :| StartedAt(t, i);
      assert StartedAt(u, i);
    } else if t.pc.Streaming? || t.pc.AwaitStopped? {
      if Doomed(t) {
        if t.open { DoomGrows(t, u, f); } else { DoomStays(t, u); }
      } else if t.pc.AwaitStopped? {
        DrainArrives(t, u, f);
      }
    }
  }

  /** At most one frame was added to the outbound queue. */
  predicate AddsAtMostOne(s: Server, t: Server) {
    && t.connected == s.connected && t.consumer == s.consumer
    && (t.outbound == s.outbound ||
        (|t.outbound| == |s.outbound| + 1 &&
         t.outbound == s.outbound + [Entry(t.outbound[|s.outbound|].frame, t.outbound[|s.outbound|].origin)]))
  }

  lemma EnqueueAdds(s: Server, f: Frame, o: Origin)
    ensures AddsAtMostOne(s, Enqueue(s, f, o))
  {
  }

  lemma RefuseAdds(s: Server, link: nat, at: int, code: bytes, message: bytes)
    ensures AddsAtMostOne(s, Refuse(s, link, at, code, message))
  {
    EnqueueAdds(s, ErrorFrame(at, code, message), FromReader(link));
  }

  lemma ChunkAdds(s: Server, link: nat, at: int, frames: u64, payload: buffer)
    ensures AddsAtMostOne(s, AcceptChunk(s, link, at, frames, payload))
  {
    RefuseAdds(s, link, at, INVALID_CHUNK, SIZE_MISMATCH);
    RefuseAdds(s, link, at, PLAYBACK_INACTIVE, INACTIVE);
    RefuseAdds(s.(droppedPlayback := s.droppedPlayback + 1), link, at, QUEUE_FULL, QUEUE_FULL_MESSAGE);
  }

  lemma StopAdds(s: Server, link: nat, at: int)
    ensures AddsAtMostOne(s, StopPlayback(s, link, at))
  {
    EnqueueAdds(s, PlaybackStopped(at, DRAINED), FromReader(link));
  }

  lemma ObeyAdds(s: Server, link: nat, at: int, k: Command)
    ensures AddsAtMostOne(s, Obey(s, link, at, k))
  {
    match k
    case Malformed => RefuseAdds(s, link, at, INVALID_REQUEST, BAD_REQUEST_MESSAGE);
    case StatusRequest => EnqueueAdds(s, StatusFrame(s, at), FromReader(link));
    case Start =>
    case StartRejected(code, message) => RefuseAdds(s, link, at, code, message);
    case Chunk(frames, payload) => ChunkAdds(s, link, at, frames, payload);
    case ChunkRejected(message) => RefuseAdds(s, link, at, INVALID_REQUEST, message);
    case Stop => StopAdds(s, link, at);
    case Clear => EnqueueAdds(Wipe(s), PlaybackCleared(at), FromReader(link));
    case Unknown => RefuseAdds(s, link, at, UNKNOWN_REQUEST, UNKNOWN_REQUEST_MESSAGE);
  }

  /** The bridge takes the next command of this client and carries it out. */
  function Taken(c: Side): Side
    requires c.commands != []
  {
    c.(commands := c.commands[1..], activating := c.commands[0].Start? || c.activating)
  }

  lemma ObeyDoomed(c: Side, s: Server, at: int)
    requires c.commands != [] && Doomed(Watch(c, s))
    ensures Doomed(Watch(Taken(c), Obey(s, c.id, at, c.commands[0])))
  {
    var s' := Obey(s, c.id, at, c.commands[0]);
    var t, u := Watch(c, s), Watch(Taken(c), s');
    ObeyAdds(s, c.id, at, c.commands[0]);
    if t.open && s'.outbound != s.outbound {
      var e := s'.outbound[|s.outbound|];
      FramesAppend(c, s, e.frame, e.origin);
      DoomGrows(t, u, e.frame);
    } else {
      DoomStays(t, u);
    }
  }

  /** A chunk of the file is either accepted whole, or the client is doomed. */
  lemma ObeyChunk(c: Side, s: Server, at: int, chunks: seq<Command>, offset: nat)
    requires Consistent(s) && Running(Watch(c, s)) && !s.stopRequested
    requires chunks != [] && chunks <= c.commands && Complement(Watch(c, s), chunks, offset)
    ensures var u := Watch(Taken(c), Obey(s, c.id, at, c.commands[0]));
            Doomed(u) || (Running(u) && !u.stopRequested && Complement(u, chunks[1..], offset))
  {
    var t := Watch(c, s);
    var k := chunks[0];
    assert c.commands[0] == k;
    var s' := AcceptChunk(s, c.id, at, k.frames, k.payload);
    var u := Watch(Taken(c), s');
    ChunkAcceptedOrRefused(s, c.id, at, k.frames, k.payload);
    if s'.outbound == s.outbound {
      ComplementShrinks(t, u, chunks, offset);
    } else {
      var e := s'.outbound[|s.outbound|];
      assert s'.outbound == s.outbound + [Entry(e.frame, e.origin)];
      FramesAppend(c, s, e.frame, e.origin);
      ErrorDooms(t, u, e.frame);
    }
  }

  /** Taking a prefix off a stretch of the file leaves the rest of the stretch. */
  lemma StretchSplits(pcm: bytes, start: nat, end: nat, p: bytes, rest: bytes)
    requires start <= end <= |pcm| && pcm[start..end] == p + rest
    ensures start + |p| <= end
    ensures pcm[start..start + |p|] == p && pcm[start + |p|..end] == rest
    ensures pcm[..start + |p|] == pcm[..start] + p
  {
    assert |pcm[start..end]| == |p| + |rest|;
    assert pcm[start..start + |p|] == pcm[start..end][..|p|];
    assert pcm[start + |p|..end] == pcm[start..end][|p|..];
  }

  lemma ComplementShrinks(t: Track, u: Track, chunks: seq<Command>, offset: nat)
    requires chunks != [] && Complement(t, chunks, offset)
    requires |chunks[0].payload| % 2 == 0 && u.pcm == t.pcm
    requires u.ledger.accepted == t.ledger.accepted + Samples(chunks[0].payload)
    ensures Complement(u, chunks[1..], offset)
  {
    hide Samples;
    var done := offset - |Payloads(chunks)|;
    var p, rest := chunks[0].payload, Payloads(chunks[1..]);
    StretchSplits(t.pcm, done, offset, p, rest);
    SamplesAppend(t.pcm[..done], p);
  }

  lemma ObeyStop(c: Side, s: Server, at: int)
    requires Consistent(s) && c.commands == [Stop] && StopOnItsWay(Watch(c, s))
    ensures var u := Watch(Taken(c), Obey(s, c.id, at, Stop));
            StopPending(u) || DrainedOnItsWay(u)
  {
    var t, u := Watch(c, s), Watch(Taken(c), Obey(s, c.id, at, Stop));
    assert t.commands[..0] == [];
    assert t.pcm[..|t.pcm|] == t.pcm;
    assert t.ledger.accepted == Samples(t.pcm);
    if s.samples == [] {
      FramesAppend(c, s, PlaybackStopped(at, DRAINED), FromReader(c.id));
      assert s.ledger.played + [] + [] == s.ledger.played;
      DrainArrives(t, u, PlaybackStopped(at, DRAINED));
    }
  }

  lemma ObeyOnTrack(c: Side, s: Server, at: int)
    requires OnTrack(Watch(c, s)) && Consistent(s) && c.commands != []
    ensures OnTrack(Watch(Taken(c), Obey(s, c.id, at, c.commands[0])))
  {
    hide Obey, Samples;
    var t := Watch(c, s);
    if (t.pc.Streaming? || t.pc.AwaitStopped?) && Doomed(t) {
      ObeyDoomed(c, s, at);
    } else if t.pc.Streaming? {
      ObeyChunk(c, s, at, c.commands, t.pc.offset);
    } else if t.pc.AwaitStopped? {
      var n := |c.commands| - 1;
      if n == 0 {
        ObeyStop(c, s, at);
      } else {
        ObeyChunk(c, s, at, c.commands[..n], |t.pcm|);
        assert c.commands[1..][..n - 1] == c.commands[..n][1..];
      }
    } else if t.pc.AwaitCleared? {
      ObeyClear(c, s, at);
    } else if t.pc.AwaitStarted? {
      ObeyAwaiting(c, s, at);
    }
  }

  lemma ObeyAwaiting(c: Side, s: Server, at: int)
    requires OnTrack(Watch(c, s)) && c.pc.AwaitStarted? && c.commands != []
    ensures OnTrack(Watch(Taken(c), Obey(s, c.id, at, c.commands[0])))
  {
    ObeyAdds(s, c.id, at, c.commands[0]);
  }

  lemma ObeyClear(c: Side, s: Server, at: int)
    requires OnTrack(Watch(c, s)) && c.pc.AwaitCleared? && c.commands != []
    ensures OnTrack(Watch(Taken(c), Obey(s, c.id, at, c.commands[0])))
  {
    FramesAppend(c, Wipe(s), PlaybackCleared(at), FromReader(c.id));
  }

  /** The host has switched to the custom capture device, or refused to. */
  lemma BeginOnTrack(c: Side, s: Server, at: int)
    requires OnTrack(Watch(c, s)) && c.activating
    ensures OnTrack(Watch(c.(activating := false), BeginPlayback(s, c.id, at)))
  {
    var s' := BeginPlayback(s, c.id, at);
    var t, u := Watch(c, s), Watch(c.(activating := false), s');
    var f := PlaybackStarted(at);
    FramesAppend(c, s, f, FromReader(c.id));
    if t.pc.AwaitStarted? && t.open {
      assert u.pipe[..|t.pipe|] == t.pipe && u.pipe[|t.pipe| + 1..] == [];
      assert StartedAt(u, |t.pipe|);
    } else if t.pc.Streaming? || t.pc.AwaitStopped? {
      if t.open { DoomGrows(t, u, f); } else { DoomStays(t, u); }
    }
  }

  lemma BeginFailedOnTrack(c: Side, s: Server, at: int, code: bytes, message: bytes)
    requires OnTrack(Watch(c, s)) && c.activating
    ensures OnTrack(Watch(c.(activating := false), Refuse(s, c.id, at, code, message)))
  {
    var d := c.(activating := false);
    var t, u := Watch(c, s), Watch(d, s);
    if (t.pc.Streaming? || t.pc.AwaitStopped?) && Doomed(t) {
      if t.open {
        var i: nat :| ErrorAt(t.pipe, i);
        assert ErrorAt(u.pipe, i);
      } else {
        DoomStays(t, u);
      }
    }
    assert OnTrack(u);
    assert Watch(d, s.(lastError := message)) == u;
    HarmlessFrame(d, s.(lastError := message), ErrorFrame(at, code, message), FromReader(c.id));
  }

  lemma DisconnectOnTrack(c: Side, s: Server, link: nat)
    requires OnTrack(Watch(c, s))
    ensures OnTrack(Watch(c, Disconnect(s, link)))
  {
    if s.consumer == Some(link) {
      TrackCloses(Watch(c, s), Watch(c, Disconnect(s, link)));
    }
  }

  lemma ShutdownOnTrack(c: Side, s: Server)
    requires OnTrack(Watch(c, s))
    ensures OnTrack(Watch(c, Shutdown(s)))
  {
    TrackCloses(Watch(c, s), Watch(c, Shutdown(s)));
  }

  /** A closed connection is archived when the next consumer is installed. */
  lemma ArchiveOnTrack(c: Side, s: Server)
    requires OnTrack(Watch(c, s)) && !Open(s, c.id)
    ensures OnTrack(WatchPast(c, s.ledger))
  {
    TrackCloses(Watch(c, s), WatchPast(c, s.ledger));
  }

  lemma {:induction false} PayloadsAppend(cs: seq<Command>, k: Command)
    requires OnlyChunks(cs) && k.Chunk? && k.frames == |k.payload| / 2
    ensures OnlyChunks(cs + [k]) && Payloads(cs + [k]) == Payloads(cs) + k.payload
  {
    if cs == [] {
      assert cs + [k] == [k] && [k][1..] == [];
    } else {
      assert (cs + [k])[1..] == cs[1..] + [k];
      PayloadsAppend(cs[1..], k);
    }
  }

  /** One more piece of the file goes out. */
  lemma ComplementGrows(t: Track, u: Track, offset: nat, n: nat)
    requires Complement(t, t.commands, offset) && offset + n <= |t.pcm| && n <= CHUNK_BYTES
    requires u.pcm == t.pcm && u.ledger == t.ledger
    requires u.commands == t.commands + [Chunk(n / 2, t.pcm[offset..offset + n])]
    ensures Complement(u, u.commands, offset + n)
  {
    hide Samples;
    var done := offset - |Payloads(t.commands)|;
    PayloadsAppend(t.commands, Chunk(n / 2, t.pcm[offset..offset + n]));
    assert t.pcm[done..offset] + t.pcm[offset..offset + n] == t.pcm[done..offset + n];
  }

  lemma DoomIgnoresProgram(t: Track, u: Track)
    requires Doomed(t) && u.pipe == t.pipe && u.open == t.open
    ensures Doomed(u)
  {
    if i: nat :| ErrorAt(t.pipe, i) { assert ErrorAt(u.pipe, i); }
  }

  lemma StreamOnTrack(t: Track, u: Track)
    requires OnTrack(t) && t.pc.Streaming? && !Doomed(t)
    requires var send := NextSend(t.pc, t.pcm);
             u == t.(pc := send.next, commands := t.commands + [send.command])
    ensures OnTrack(u)
  {
    hide Doomed, Complement, Samples;
    var offset := t.pc.offset;
    if offset < |t.pcm| {
      ComplementGrows(t, u, offset, Min(|t.pcm| - offset, CHUNK_BYTES));
    } else {
      assert u.commands[..|u.commands| - 1] == t.commands;
      SameComplement(t, u, t.commands, offset);
    }
  }

  lemma SameComplement(t: Track, u: Track, chunks: seq<Command>, offset: nat)
    requires Complement(t, chunks, offset) && u.pcm == t.pcm && u.ledger == t.ledger
    ensures Complement(u, chunks, offset) && offset <= |t.pcm|
  {
  }

  /** The client writes its next command. */
  lemma SendOnTrack(t: Track, u: Track)
    requires OnTrack(t) && NextSend(t.pc, t.pcm).Send?
    requires var send := NextSend(t.pc, t.pcm);
             u == t.(pc := send.next, commands := t.commands + [send.command])
    ensures OnTrack(u)
  {
    hide Doomed, Complement, Samples;
    if t.pc.Streaming? && Doomed(t) {
      DoomIgnoresProgram(t, u);
    } else if t.pc.Streaming? {
      StreamOnTrack(t, u);
    }
  }

  /** The client hears the next frame. */
  lemma HearOnTrack(t: Track, u: Track)
    requires OnTrack(t) && Listening(t.pc) && t.pipe != []
    requires u == t.(pc := Hear(t.pc, t.pipe[0]), pipe := t.pipe[1..])
    ensures OnTrack(u)
  {
    var f := t.pipe[0];
    if f.ErrorFrame? {
    } else if t.pc.AwaitStarted? && JustStarted(t) {
      var i: nat :| StartedAt(t, i);
      if i == 0 {
        assert u.pipe == t.pipe[0 + 1..];
        assert t.pcm[..0] == [] && t.pcm[0..0] == [];
      } else {
        assert t.pipe[..i][0] == f;
        assert u.pipe[..i - 1] == t.pipe[..i][1..];
        assert u.pipe[i..] == t.pipe[i + 1..];
        assert StartedAt(u, i - 1);
      }
    } else if t.pc.Streaming? || t.pc.AwaitStopped? {
      if Doomed(t) {
        HearDoomed(t, u);
      } else if t.pc.AwaitStopped? && DrainedOnItsWay(t) {
        var i: nat :| DrainedAt(t, i);
        if i > 0 {
          assert t.pipe[..i][0] == f;
          assert u.pipe[..i - 1] == t.pipe[..i][1..];
          assert DrainedAt(u, i - 1);
        }
      }
    }
  }

  lemma HearDoomed(t: Track, u: Track)
    requires Doomed(t) && t.pipe != [] && !t.pipe[0].ErrorFrame?
    requires u.pipe == t.pipe[1..] && u.open == t.open
    ensures Doomed(u) && !t.pipe[0].PlaybackStopped?
  {
    if i: nat :| ErrorAt(t.pipe, i) {
      assert t.pipe[..i][0] == t.pipe[0];
      assert u.pipe[..i - 1] == t.pipe[..i][1..];
      assert ErrorAt(u.pipe, i - 1);
    }
  }
}
