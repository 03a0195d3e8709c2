/** What a refused chunk means for the client that sent it: whatever happens afterwards, its
    playback does not succeed. */
module MediaRefusal {
  import opened Bytes
  import opened Wire
  import opened MediaFrames
  import opened MediaState
  import opened PlaybackTrack
  import opened MediaWorld
  import MediaTheorems

  /** The client has begun to send its file. */
  predicate Sending(pc: Pc) {
    pc.Streaming? || pc.AwaitStopped?
  }

  ghost predicate FatedCurrent(w: World) {
    var l := w.cur;
    l.client.Player? && l.taken <= |l.sent| &&
    (l.client.pc.Failed? || (Sending(l.client.pc) && Doomed(Watch(SideOf(l), w.srv))))
  }

  ghost predicate FatedPast(l: Link) {
    l.client.Player? && l.taken <= |l.sent| &&
    (l.client.pc.Failed? || (Sending(l.client.pc) && Doomed(WatchPast(SideOf(l), l.ledger))))
  }

  /** The connection numbered `id`, wherever it is, has failed or can no longer hear that
      playback stopped. */
  ghost predicate Fated(w: World, id: nat) {
    && 0 < id < w.nextId
    && (w.cur.id == id ==> FatedCurrent(w))
    && forall i :: 0 <= i < |w.past| && w.past[i].id == id ==> FatedPast(w.past[i])
  }

  // ---------- Doom outlives every block of the bridge ----------

  lemma DoomAdds(c: Side, d: Side, s: Server, t: Server)
    requires Doomed(Watch(c, s)) && AddsAtMostOne(s, t) && d.written == c.written && d.id == c.id
    ensures Doomed(Watch(d, t))
  {
    hide ErrorAt, FramesOf;
    if Open(s, c.id) && t.outbound != s.outbound {
      var e := t.outbound[|s.outbound|];
      FramesAppend(c, s, e.frame, e.origin);
      DoomGrows(Watch(c, s), Watch(d, t), e.frame);
    } else {
      DoomStays(Watch(c, s), Watch(d, t));
    }
  }

  lemma DoomCloses(c: Side, d: Side, s: Server, t: Server)
    requires Doomed(Watch(c, s)) && d.written <= c.written && !Open(t, d.id)
    ensures Doomed(Watch(d, t))
  {
    hide FramesOf;
    DoomStays(Watch(c, s), Watch(d, t));
  }

  lemma DoomArchived(c: Side, s: Server, ledger: Ledger)
    requires Doomed(Watch(c, s)) && !Open(s, c.id)
    ensures Doomed(WatchPast(c, ledger))
  {
    DoomStays(Watch(c, s), WatchPast(c, ledger));
  }

  lemma EnvironmentAdds(s: Server, op: Op)
    requires IsEnvironment(op)
    ensures AddsAtMostOne(s, Do(s, op))
  {
    match op
    case OpAudio(at, sp, rate, channels, n, payload) =>
      EnqueueAdds(s, AudioChunk(at, sp, rate, channels, n, payload), FromPublisher);
    case OpSpeakerStart(at, sp) =>
      EnqueueAdds(s.(speakers := s.speakers[SpeakerKey(sp) := sp]), SpeakerStart(at, sp), FromPublisher);
    case OpSpeakerStop(at, sp) =>
      EnqueueAdds(s.(speakers := s.speakers - {SpeakerKey(sp)}), SpeakerStop(at, sp), FromPublisher);
    case OpFill(count, at) =>
    case OpRun(_) =>
    case OpNote(_) =>
  }

  /** A block of the reader, or of the audio thread and the publishers. */
  lemma FatedAdds(w: World, s: Server, l: Link)
    requires FatedCurrent(w) && AddsAtMostOne(w.srv, s)
    requires l.client == w.cur.client && l.id == w.cur.id && l.sent == w.cur.sent && l.taken == w.cur.taken
    requires l.writer == w.cur.writer
    ensures FatedCurrent(w.(srv := s, cur := l))
  {
    hide Doomed, AddsAtMostOne, Watch;
    if Sending(w.cur.client.pc) {
      DoomAdds(SideOf(w.cur), SideOf(l), w.srv, s);
    }
  }

  lemma BeginAdds(s: Server, link: nat, at: int)
    ensures AddsAtMostOne(s, BeginPlayback(s, link, at))
  {
  }

  lemma FatedTakeCommand(w: World, at: int)
    requires FatedCurrent(w)
    ensures FatedCurrent(DoTakeCommand(w, at))
  {
    hide FatedCurrent, Obey, ReadCommand;
    var read := ReadCommand(w.cur.toServer);
    if w.cur.reader.Reading? && read.CommandGot? {
      ObeyAdds(w.srv, w.cur.id, at, read.command);
      var v := DoTakeCommand(w, at);
      FatedAdds(w, v.srv, v.cur);
    }
  }

  lemma FatedActivation(w: World, at: int, code: bytes, message: bytes)
    requires FatedCurrent(w)
    ensures FatedCurrent(DoActivated(w, at)) && FatedCurrent(DoActivationFailed(w, at, code, message))
  {
    hide FatedCurrent, BeginPlayback, Refuse;
    BeginAdds(w.srv, w.cur.id, at);
    RefuseAdds(w.srv, w.cur.id, at, code, message);
    var l := w.cur.(reader := Reading);
    FatedAdds(w, BeginPlayback(w.srv, w.cur.id, at), l);
    FatedAdds(w, Refuse(w.srv, w.cur.id, at, code, message), l);
  }

  /** A connection that is closed, or whose last frame is lost. */
  lemma FatedCloses(w: World, s: Server, l: Link)
    requires FatedCurrent(w) && !Open(s, l.id)
    requires l.client == w.cur.client && l.id == w.cur.id && l.sent == w.cur.sent && l.taken == w.cur.taken
    requires l.writer == w.cur.writer || (w.cur.writer.Holding? && !l.writer.Holding?)
    ensures FatedCurrent(w.(srv := s, cur := l))
  {
    if Sending(w.cur.client.pc) {
      hide Doomed, FramesOf, Watch;
      LostOrKept(w.cur.sent[w.cur.taken..], w.cur.writer, l.writer);
      DoomCloses(SideOf(w.cur), SideOf(l), w.srv, s);
    }
  }

  lemma LostOrKept(written: seq<Entry>, before: Writer, after: Writer)
    requires after == before || (before.Holding? && !after.Holding?)
    ensures FramesOf(written + Held(after)) <= FramesOf(written + Held(before))
  {
    if before.Holding? && after != before {
      HeldIsLost(written, before.entry);
    }
  }

  lemma FatedDisconnect(w: World, cut: nat)
    requires Sound(w) && FatedCurrent(w)
    ensures FatedCurrent(DoReaderEnds(w)) && FatedCurrent(DoWriteFails(w, cut)) && FatedCurrent(DoBridgeStops(w))
  {
    hide FatedCurrent, EncodeFrame, Consistent;
    var s := Disconnect(w.srv, w.cur.id);
    assert !Open(s, w.cur.id) && !Open(Shutdown(w.srv), w.cur.id);
    FatedCloses(w, s, DoReaderEnds(w).cur);
    if DoWriteFails(w, cut) != w {
      FatedCloses(w, s, DoWriteFails(w, cut).cur);
    }
    FatedCloses(w, Shutdown(w.srv), w.cur);
  }

  lemma FatedWriter(w: World)
    requires Sound(w) && FatedCurrent(w)
    ensures FatedCurrent(DoPopFrame(w)) && FatedCurrent(DoWriteFrame(w)) && FatedCurrent(DoWriterEnds(w))
  {
    hide Doomed, EncodeFrame, Consistent, Watch;
    var l := w.cur;
    if l.writer.Waiting? && w.srv.connected && w.srv.outbound != [] {
      PopKeepsWatch(l, w.srv);
    }
    if l.writer.Holding? {
      assert (l.sent + [l.writer.entry])[l.taken..] + [] == l.sent[l.taken..] + Held(l.writer);
    }
    assert Held(DoWriterEnds(w).cur.writer) == Held(l.writer);
    SameSides(w);
  }

  lemma SameSides(w: World)
    requires w.cur.client.Player? && w.cur.taken <= |w.cur.sent|
    ensures SideOf(DoWriteFrame(w).cur) == SideOf(w.cur) && SideOf(DoWriterEnds(w).cur) == SideOf(w.cur)
  {
    hide EncodeFrame;
    var l := w.cur;
    if l.writer.Holding? {
      assert (l.sent + [l.writer.entry])[l.taken..] + [] == l.sent[l.taken..] + [l.writer.entry];
    }
  }

  lemma FatedEnvironment(w: World, op: Op)
    requires FatedCurrent(w)
    ensures FatedCurrent(DoEnvironment(w, op))
  {
    hide FatedCurrent, Do;
    if IsEnvironment(op) {
      EnvironmentAdds(w.srv, op);
      FatedAdds(w, Do(w.srv, op), w.cur);
    }
  }

  // ---------- Doom outlives every move of the client ----------

  /** Sending goes on towards "stopped"; hearing meets the error or nothing of interest. */
  lemma DoomedMoves(t: Track, u: Track)
    requires Doomed(t) && Sending(t.pc)
    requires (u.pipe == t.pipe && u.open == t.open && NextSend(t.pc, t.pcm).Send? && u.pc == NextSend(t.pc, t.pcm).next)
          || (t.pipe != [] && u.open == t.open && u.pipe == t.pipe[1..] && u.pc == Hear(t.pc, t.pipe[0]))
    ensures u.pc.Failed? || (Sending(u.pc) && Doomed(u))
  {
    hide Doomed;
    if u.pipe == t.pipe && NextSend(t.pc, t.pcm).Send? && u.pc == NextSend(t.pc, t.pcm).next {
      DoomIgnoresProgram(t, u);
    } else if !t.pipe[0].ErrorFrame? {
      HearDoomed(t, u);
    }
  }

  lemma SendingMoves(l: Link, t: Track, u: Track)
    requires l.client.Player? && Sending(l.client.pc) && Doomed(t)
    requires t.pc == l.client.pc && t.pcm == l.client.pcm
      && u == t.(pc := LinkSends(l).client.pc, commands := u.commands)
    ensures u.pc.Failed? || (Sending(u.pc) && Doomed(u))
  {
    hide Doomed;
    if NextSend(l.client.pc, l.client.pcm).Send? {
      DoomedMoves(t, u);
    } else {
      DoomIgnoresProgram(t, u);
    }
  }

  lemma HearingMoves(l: Link, later: seq<Frame>, t: Track, u: Track)
    requires l.client.Player? && Lockstep(l) && l.taken < |l.sent| && Sending(l.client.pc) && Doomed(t)
    requires t.pc == l.client.pc && t.pipe == FramesOf(l.sent[l.taken..] + Held(l.writer)) + later
    requires u.open == t.open && u.pc == Hear(t.pc, l.sent[l.taken].frame)
    requires u.pipe == FramesOf(l.sent[l.taken + 1..] + Held(l.writer)) + later
    ensures u.pc.Failed? || (Sending(u.pc) && Doomed(u))
  {
    hide Doomed, Hear, EncodeFrame, EncodeCommand, Lockstep;
    PipeAdvances(l, l.(taken := l.taken + 1));
    var before := FramesOf(l.sent[l.taken..] + Held(l.writer));
    assert (before + later)[1..] == before[1..] + later;
    DoomedMoves(t, u);
  }

  lemma FatedSends(w: World)
    requires FatedCurrent(w)
    ensures FatedCurrent(w.(cur := LinkSends(w.cur)))
  {
    hide Doomed, EncodeCommand;
    if Sending(w.cur.client.pc) {
      SendingMoves(w.cur, Watch(SideOf(w.cur), w.srv), Watch(SideOf(LinkSends(w.cur)), w.srv));
    }
  }

  lemma FatedPastSends(l: Link)
    requires FatedPast(l)
    ensures FatedPast(LinkSends(l))
  {
    hide Doomed, EncodeCommand;
    if Sending(l.client.pc) {
      SendingMoves(l, WatchPast(SideOf(l), l.ledger), WatchPast(SideOf(LinkSends(l)), l.ledger));
    }
  }

  lemma HeardFate(l: Link, m: Link, s: Server)
    requires l.client.Player? && Lockstep(l) && l.taken < |l.sent| && Sending(l.client.pc) && Heard(l, m)
    ensures m.client.Player? && m.taken <= |m.sent|
    ensures Doomed(Watch(SideOf(l), s)) ==>
              m.client.pc.Failed? || (Sending(m.client.pc) && Doomed(Watch(SideOf(m), s)))
    ensures Doomed(WatchPast(SideOf(l), l.ledger)) ==>
              m.client.pc.Failed? || (Sending(m.client.pc) && Doomed(WatchPast(SideOf(m), m.ledger)))
  {
    hide Doomed, Hear, EncodeFrame, EncodeCommand;
    var later := if Open(s, l.id) then FramesOf(s.outbound) else [];
    var t, u := Watch(SideOf(l), s), Watch(SideOf(m), s);
    assert t.pipe == SideOf(l).written + later && u.pipe == SideOf(m).written + later;
    if Doomed(t) {
      HearingMoves(l, later, t, u);
    }
    var p, q := WatchPast(SideOf(l), l.ledger), WatchPast(SideOf(m), m.ledger);
    assert p.pipe == SideOf(l).written + [] && q.pipe == SideOf(m).written + [];
    if Doomed(p) {
      HearingMoves(l, [], p, q);
    }
  }

  lemma FatedReads(w: World)
    requires FatedCurrent(w) && Lockstep(w.cur)
    ensures FatedCurrent(w.(cur := LinkReads(w.cur)))
  {
    hide Doomed, Hear, Watch, ReadFrame, EncodeFrame, EncodeCommand, Lockstep;
    if Sending(w.cur.client.pc) {
      LockstepReads(w.cur);
      LockstepTaken(w.cur);
      if w.cur.taken < |w.cur.sent| {
        HeardFate(w.cur, LinkReads(w.cur), w.srv);
      }
    }
  }

  lemma LockstepTaken(l: Link)
    requires Lockstep(l)
    ensures l.taken <= |l.sent|
  {
  }

  lemma FatedPastReads(l: Link)
    requires FatedPast(l) && Lockstep(l)
    ensures FatedPast(LinkReads(l))
  {
    hide Doomed, Hear, WatchPast, ReadFrame, EncodeFrame, EncodeCommand, Lockstep;
    if Sending(l.client.pc) {
      LockstepReads(l);
      LockstepTaken(l);
      if l.taken < |l.sent| {
        HeardFate(l, LinkReads(l), INITIAL);
      }
    }
  }

  lemma FatedMove(w: World, step: Step)
    requires FatedCurrent(w) && Lockstep(w.cur) && IsClientStep(step)
    ensures FatedCurrent(w.(cur := MovedLink(w.cur, step)))
  {
    hide Doomed, EncodeFrame, EncodeCommand, ReadFrame, Lockstep, Watch;
    if step.ClientSends? {
      FatedSends(w);
    } else if step.ClientReads? {
      FatedReads(w);
    }
  }

  lemma FatedPastMove(l: Link, step: Step)
    requires FatedPast(l) && Lockstep(l) && IsClientStep(step)
    ensures FatedPast(MovedLink(l, step))
  {
    hide Doomed, EncodeFrame, EncodeCommand, ReadFrame, Lockstep, WatchPast;
    if step.ClientSends? {
      FatedPastSends(l);
    } else if step.ClientReads? {
      FatedPastReads(l);
    }
  }

  // ---------- Every step ----------

  lemma FatedServerStep(w: World, step: Step)
    requires Sound(w) && FatedCurrent(w) && !IsClientStep(step) && !step.Connect?
    ensures FatedCurrent(Next(w, step)) && Next(w, step).cur.id == w.cur.id
    ensures Next(w, step).past == w.past && Next(w, step).nextId == w.nextId
  {
    hide FatedCurrent, Consistent, EncodeFrame, ReadCommand, Obey, Do, Disconnect, Shutdown, BeginPlayback, Refuse;
    match step
    case TakeCommand(at) => FatedTakeCommand(w, at);
    case Activated(at) => FatedActivation(w, at, ERROR, ERROR);
    case ActivationFailed(at, code, message) => FatedActivation(w, at, code, message);
    case ReaderEnds => FatedDisconnect(w, 0);
    case WriteFails(cut) => FatedDisconnect(w, cut);
    case BridgeStops => FatedDisconnect(w, 0);
    case PopFrame => FatedWriter(w);
    case WriteFrame => FatedWriter(w);
    case WriterEnds => FatedWriter(w);
    case Environment(op) => FatedEnvironment(w, op);
  }

  /** Other steps keep the numbers and the archive. */
  lemma ServerStepKeeps(w: World, step: Step)
    requires !IsClientStep(step) && !step.Connect?
    ensures Next(w, step).past == w.past && Next(w, step).nextId == w.nextId && Next(w, step).cur.id == w.cur.id
  {
    hide EncodeFrame, ReadCommand, Obey, Do, Disconnect, Shutdown, BeginPlayback, Refuse;
  }

  lemma ConnectKeepsFate(w: World, at: int, client: Client, id: nat)
    requires Sound(w) && Fated(w, id)
    ensures Fated(DoConnect(w, at, client), id)
  {
    hide Doomed, Watch, WatchPast, Install, EncodeFrame, Consistent;
    var v := DoConnect(w, at, client);
    if v != w && !w.srv.connected {
      var l := w.cur.(ledger := w.srv.ledger);
      if w.cur.id == id && Sending(w.cur.client.pc) {
        DoomArchived(SideOf(w.cur), w.srv, l.ledger);
        assert SideOf(l) == SideOf(w.cur);
      }
      assert w.cur.id == id ==> FatedPast(l);
    }
  }

  lemma ClientMoveKeepsFate(w: World, step: Step, id: nat)
    requires Fine(w) && Fated(w, id) && IsClientStep(step)
    ensures Fated(Next(w, step), id)
  {
    hide FatedCurrent, FatedPast, Lockstep, OnTrack, MovedLink;
    ClientStepIsMove(w, step);
    match step.link
    case Current =>
      if w.cur.id == id {
        assert Lockstep(w.cur) by { CurrentIsPlayer(w); }
        FatedMove(w, step);
      }
    case Past(i) =>
      if i < |w.past| {
        var l := w.past[i];
        if l.id == id {
          assert Lockstep(l) by { PastIsPlayer(l); }
          FatedPastMove(l, step);
        }
        assert MovedLink(l, step).id == l.id;
        PastChangeIsElsewhere(w, i, MovedLink(l, step), id);
      }
  }

  lemma CurrentIsPlayer(w: World)
    requires Fine(w) && FatedCurrent(w)
    ensures Lockstep(w.cur)
  {
  }

  lemma PastIsPlayer(l: Link)
    requires ArchivedFine(l) && FatedPast(l)
    ensures Lockstep(l)
  {
  }

  lemma PastChangeIsElsewhere(w: World, i: nat, l: Link, id: nat)
    requires i < |w.past| && Fated(w, id) && l.id == w.past[i].id && (l.id == id ==> FatedPast(l))
    ensures Fated(w.(past := w.past[i := l]), id)
  {
    hide FatedPast, Doomed, Watch;
  }

  lemma FatedStep(w: World, step: Step, id: nat)
    requires Sound(w) && Fine(w) && Fated(w, id)
    ensures Fated(Next(w, step), id)
  {
    hide FatedCurrent, FatedPast, Next, Sound, Fine;
    if IsClientStep(step) {
      ClientMoveKeepsFate(w, step, id);
    } else if step.Connect? {
      ConnectKeepsFate(w, step.at, step.client, id);
      ConnectIsStep(w, step);
    } else {
      ServerStepKeeps(w, step);
      if w.cur.id == id {
        FatedServerStep(w, step);
      }
    }
  }

  lemma ConnectIsStep(w: World, step: Step)
    requires step.Connect?
    ensures Next(w, step) == DoConnect(w, step.at, step.client)
  {
  }

  lemma {:induction false} FateIsFinal(steps: seq<Step>, more: seq<Step>, id: nat)
    requires Fated(Run(steps), id)
    ensures Fated(Run(steps + more), id)
    decreases |more|
  {
    hide Next, Fated, Run;
    if more == [] {
      assert steps + more == steps;
    } else {
      var n := |more| - 1;
      FateIsFinal(steps, more[..n], id);
      AlwaysGood(steps + more[..n]);
      FatedStep(Run(steps + more[..n]), more[n], id);
      MediaTheorems.RunSnoc(steps + more[..n], more[n]);
      assert steps + more[..n] + [more[n]] == steps + more;
    }
  }

  // ---------- A refused chunk ----------

  /** The bridge's reader is about to take a chunk of the current client, and will refuse it. */
  predicate AboutToRefuse(w: World) {
    && w.cur.client.Player? && Sending(w.cur.client.pc) && w.cur.reader.Reading?
    && ReadCommand(w.cur.toServer).CommandGot?
    && var k := ReadCommand(w.cur.toServer).command;
       k.Chunk? && !(w.srv.active && |k.payload| == DeclaredBytes(k.frames)
                     && |w.srv.samples| + |k.payload| / 2 <= MAX_QUEUED)
  }

  lemma RefusalDooms(c: Side, s: Server, at: int)
    requires OnTrack(Watch(c, s)) && Sending(c.pc) && c.commands != [] && c.commands[0].Chunk?
    requires var k := c.commands[0];
             !(s.active && |k.payload| == DeclaredBytes(k.frames) && |s.samples| + |k.payload| / 2 <= MAX_QUEUED)
    ensures Doomed(Watch(Taken(c), Obey(s, c.id, at, c.commands[0])))
  {
    hide Doomed, OnTrack, Obey;
    if Doomed(Watch(c, s)) {
      ObeyDoomed(c, s, at);
    } else {
      RunningWhileChunksCome(Watch(c, s));
      FirstRefusal(c, s, at);
    }
  }

  lemma FirstRefusal(c: Side, s: Server, at: int)
    requires Running(Watch(c, s)) && c.commands != [] && c.commands[0].Chunk?
    requires var k := c.commands[0];
             !(s.active && |k.payload| == DeclaredBytes(k.frames) && |s.samples| + |k.payload| / 2 <= MAX_QUEUED)
    ensures Doomed(Watch(Taken(c), Obey(s, c.id, at, c.commands[0])))
  {
    hide Doomed, AcceptChunk, Samples;
    var k := c.commands[0];
    var u := AcceptChunk(s, c.id, at, k.frames, k.payload);
    ChunkAcceptedOrRefused(s, c.id, at, k.frames, k.payload);
    ChunkAdds(s, c.id, at, k.frames, k.payload);
    var e := u.outbound[|s.outbound|];
    FramesAppend(c, s, e.frame, e.origin);
    ErrorDooms(Watch(c, s), Watch(Taken(c), u), e.frame);
  }

  lemma RunningWhileChunksCome(t: Track)
    requires OnTrack(t) && Sending(t.pc) && !Doomed(t) && t.commands != []
    ensures Running(t)
  {
    hide Doomed, Complement;
  }

  /** Every chunk that is refused costs its client the playback: the error is queued ahead of
      any "stopped", and in no continuation of the run does the client succeed. */
  lemma RefusedChunkIsFatal(steps: seq<Step>, at: int, more: seq<Step>)
    requires AboutToRefuse(Run(steps))
    ensures var id := Run(steps).cur.id;
            forall link: Where :: LinkAt(Run(steps + [TakeCommand(at)] + more), link).id == id && id != 0 ==>
              LinkAt(Run(steps + [TakeCommand(at)] + more), link).client.Player? &&
              !LinkAt(Run(steps + [TakeCommand(at)] + more), link).client.pc.Finished?
  {
    hide Run, Next, FatedCurrent, FatedPast, DoTakeCommand;
    var w := Run(steps);
    if w.cur.id != 0 {
      AlwaysGood(steps);
      MediaTheorems.AlwaysNumbered(steps);
      MediaTheorems.RunSnoc(steps, TakeCommand(at));
      RefusalIsFated(w, at);
      FateIsFinal(steps + [TakeCommand(at)], more, w.cur.id);
      FatedDoesNotFinish(Run(steps + [TakeCommand(at)] + more), w.cur.id);
    }
  }

  lemma RefusalIsFated(w: World, at: int)
    requires AboutToRefuse(w) && Sound(w) && Fine(w) && MediaTheorems.Numbered(w) && w.cur.id != 0
    ensures Fated(Next(w, TakeCommand(at)), w.cur.id)
  {
    hide Doomed, OnTrack, ReadCommand, Obey, EncodeCommand, EncodeFrame, Consistent, Watch;
    LockstepTake(w.cur);
    RefusalDooms(SideOf(w.cur), w.srv, at);
    var v := DoTakeCommand(w, at);
    assert SideOf(v.cur) == Taken(SideOf(w.cur));
  }

  lemma FatedDoesNotFinish(w: World, id: nat)
    requires Fated(w, id)
    ensures forall link: Where :: LinkAt(w, link).id == id ==>
              LinkAt(w, link).client.Player? && !LinkAt(w, link).client.pc.Finished?
  {
    hide Doomed;
  }
}
