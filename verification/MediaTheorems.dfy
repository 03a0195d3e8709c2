/** What holds of the media bridge in every run, and runs that show which things do not. */
module MediaTheorems {
  import opened Bytes
  import opened Wire
  import opened MediaFrames
  import opened MediaState
  import opened PlaybackTrack
  import opened MediaWorld
  import Wave

  // ---------- Playback ----------

  /** The bridge's account of a connection's playback: live for the current consumer, and as
      it stood when the next consumer came for an earlier one. */
  function LedgerAt(w: World, at: Where): Ledger {
    if at.Current? then w.srv.ledger else LinkAt(w, at).ledger
  }

  /** End to end: whenever send_playback_file has succeeded, the reason is "drained", and the
      samples the audio thread popped since playback.start are exactly the samples of the
      file, in order, each once. The threads, other consumers, failed writes, disconnects and
      restarts may interleave in any way. */
  lemma PlaybackEndToEnd(steps: seq<Step>, at: Where)
    requires var l := LinkAt(Run(steps), at); l.client.Player? && l.client.pc.Finished?
    ensures var l := LinkAt(Run(steps), at);
            && l.client.pc.reason == DRAINED
            && |l.client.pcm| % 2 == 0
            && LedgerAt(Run(steps), at).played == Samples(l.client.pcm)
  {
    hide Run, Samples, EncodeFrame, EncodeCommand;
    AlwaysGood(steps);
    var w := Run(steps);
    if at.Past? {
      assert ArchivedFine(w.past[at.i]);
    }
  }

  /** In terms of the samples themselves: a file that was written from a list of samples, two
      bytes each and the low one first, is played as exactly that list. */
  lemma SamplesArePlayed(steps: seq<Step>, at: Where, xs: seq<Sample>)
    requires var l := LinkAt(Run(steps), at); l.client.Player? && l.client.pc.Finished? && l.client.pcm == Pcm(xs)
    ensures LedgerAt(Run(steps), at).played == xs
  {
    hide Run, Samples, Pcm;
    PlaybackEndToEnd(steps, at);
    SamplesOfPcm(xs);
  }

  /** What is counted as played is what fill_playback_samples wrote into the host's buffer. */
  lemma PlayedIsWritten(s: Server, count: nat, at: int)
    requires s.active
    ensures var n := Min(count, |s.samples|);
            && Fill(s, count, at).ledger.played == s.ledger.played + FillValues(s.samples, count)[..n]
            && Fill(s, count, at).samples == s.samples[n..]
            && (forall i :: n <= i < count ==> FillValues(s.samples, count)[i] == 0)
  {
  }

  /** Playback invariant and sample conservation in every reachable state. */
  lemma PlaybackInvariant(steps: seq<Step>)
    ensures var s := Run(steps).srv;
            && (!s.active ==> s.samples == [] && !s.stopRequested)
            && (s.stopRequested ==> s.active && s.samples != [])
            && |s.samples| <= 1440000
            && s.ledger.accepted == s.ledger.played + s.ledger.discarded + s.samples
            && (s.active ==> s.ledger.accepted == s.ledger.played + s.samples)
            && (forall i, j :: 0 <= i < j < |s.marks| && s.marks[i] == s.marks[j] == MarkDrained ==>
                  exists k :: i < k < j && s.marks[k] == MarkStarted)
  {
    hide Run;
    AlwaysGood(steps);
    var s := Run(steps).srv;
    if s.active {
      assert s.ledger.played + [] + s.samples == s.ledger.played + s.samples;
    }
  }

  // ---------- Consumers ----------

  /** Every connection has a number of its own. */
  predicate Numbered(w: World) {
    && w.cur.id < w.nextId
    && (forall i :: 0 <= i < |w.past| ==> w.past[i].id < w.nextId && w.past[i].id != w.cur.id)
    && (forall i, j :: 0 <= i < j < |w.past| ==> w.past[i].id != w.past[j].id)
  }

  lemma NumberedConnect(w: World, at: int, client: Client)
    requires Numbered(w)
    ensures Numbered(DoConnect(w, at, client))
  {
  }

  lemma NumberedStep(w: World, step: Step)
    requires Numbered(w)
    ensures Numbered(Next(w, step))
  {
    hide ReadCommand, EncodeFrame, EncodeCommand, Do, Obey, Refuse, BeginPlayback, Disconnect, Shutdown, Install;
    if IsClientStep(step) {
      ClientStepIsMove(w, step);
      var m := MovedLink(LinkAt(w, step.link), step);
      assert m.id == LinkAt(w, step.link).id;
    } else if step.Connect? {
      NumberedConnect(w, step.at, step.client);
    }
  }

  lemma {:induction false} AlwaysNumbered(steps: seq<Step>)
    ensures Numbered(Run(steps))
  {
    if steps != [] {
      AlwaysNumbered(steps[..|steps| - 1]);
      NumberedStep(Run(steps[..|steps| - 1]), steps[|steps| - 1]);
    }
  }

  /** Consumer isolation: what is written to a consumer begins with its greeting (hello,
      status and the speakers, or "busy" alone), and no frame that another connection's reader
      or acceptor queued is ever in it, over any number of reconnects. */
  lemma ConsumerIsolation(steps: seq<Step>, at: Where)
    requires LinkAt(Run(steps), at).id != 0
    ensures var l := LinkAt(Run(steps), at);
            && IsGreeting(l.greeting)
            && Agree(l.sent, l.greeting)
            && forall i :: 0 <= i < |l.sent| ==> OwnedBy(l.sent[i], l.id)
    ensures forall other: Where :: LinkAt(Run(steps), other).id == LinkAt(Run(steps), at).id ==>
              LinkAt(Run(steps), other) == LinkAt(Run(steps), at)
  {
    hide Run, IsGreeting;
    AlwaysGood(steps);
    AlwaysNumbered(steps);
    var w := Run(steps);
    if at.Current? {
      SentIsGreeted(w);
    } else {
      assert ArchivedStream(w.past[at.i]);
    }
  }

  lemma SentIsGreeted(w: World)
    requires Streams(w)
    ensures Agree(w.cur.sent, w.cur.greeting)
    ensures forall i :: 0 <= i < |w.cur.sent| ==> OwnedBy(w.cur.sent[i], w.cur.id)
  {
    var stream := Stream(w.cur);
    assert w.cur.sent <= stream <= FullStream(w);
    forall i | 0 <= i < |w.cur.sent| ensures OwnedBy(w.cur.sent[i], w.cur.id) {
      assert w.cur.sent[i] == stream[i];
    }
  }

  /** Speaker mirror: a consumer that folds the speaker frames it was sent, and those still
      queued for it, has the bridge's active speakers, however much audio was dropped. */
  lemma SpeakerMirror(steps: seq<Step>)
    requires Run(steps).srv.connected
    ensures ReadMirror(FieldsOf(FramesOf(FullStream(Run(steps))))) == WireSpeakers(Run(steps).srv.speakers)
  {
    hide Run, Mirror, ReadMirror, WireSpeakers, FieldsOf, FramesOf;
    AlwaysGood(steps);
    MirrorIsReadable(FramesOf(FullStream(Run(steps))));
  }

  // ---------- A run that succeeds ----------

  lemma RunSnoc(steps: seq<Step>, step: Step)
    ensures Run(steps + [step]) == Next(Run(steps), step)
  {
    assert (steps + [step])[..|steps|] == steps;
  }

  /** Nothing is on its way in either direction, and both threads are waiting. */
  predicate Quiet(w: World, pcm: bytes, pc: Pc) {
    && Open(w.srv, w.cur.id) && w.cur.client == Player(pcm, pc)
    && w.cur.toServer == [] && w.cur.commands == [] && w.cur.toClient == []
    && w.cur.reader.Reading? && w.cur.writer.Waiting?
  }

  /** The frame at the head of the queue is written and heard. */
  lemma Deliver(w: World, pcm: bytes, pc: Pc)
    requires Quiet(w, pcm, pc) && Listening(pc) && w.srv.outbound != []
    ensures var e := w.srv.outbound[0];
            var v := Next(Next(Next(w, PopFrame), WriteFrame), ClientReads(Current));
            && Quiet(v, pcm, Hear(pc, e.frame))
            && v.srv == w.srv.(outbound := w.srv.outbound[1..])
  {
    hide EncodeFrame, ReadFrame, Hear, AfterRead;
    var e := w.srv.outbound[0];
    var u := DoWriteFrame(DoPopFrame(w));
    assert u.cur.toClient == [] + EncodeFrame(e.frame) == EncodeFrame(e.frame) + [];
    ReadFrameExact(e.frame, []);
    ReadIsHear(pc, e.frame, []);
  }

  lemma DeliverRun(steps: seq<Step>, pcm: bytes, pc: Pc) returns (more: seq<Step>)
    requires Quiet(Run(steps), pcm, pc) && Listening(pc) && Run(steps).srv.outbound != []
    ensures var w := Run(steps);
            && Quiet(Run(more), pcm, Hear(pc, w.srv.outbound[0].frame))
            && Run(more).srv == w.srv.(outbound := w.srv.outbound[1..])
  {
    hide Run, Next, Hear;
    Deliver(Run(steps), pcm, pc);
    RunSnoc(steps, PopFrame);
    RunSnoc(steps + [PopFrame], WriteFrame);
    RunSnoc(steps + [PopFrame] + [WriteFrame], ClientReads(Current));
    more := steps + [PopFrame] + [WriteFrame] + [ClientReads(Current)];
  }

  /** The client writes its next command and the bridge carries it out. */
  lemma Exchange(w: World, pcm: bytes, pc: Pc)
    requires Quiet(w, pcm, pc) && NextSend(pc, pcm).Send?
    ensures var send := NextSend(pc, pcm);
            var v := Next(Next(w, ClientSends(Current)), TakeCommand(0));
            && v.srv == Obey(w.srv, w.cur.id, 0, send.command)
            && v.cur == w.cur.(client := Player(pcm, send.next),
                               reader := if send.command.Start? then Activating else Reading)
  {
    hide EncodeCommand, ReadCommand, Obey;
    var k := NextSend(pc, pcm).command;
    ReadCommandExact(k, []);
    var u := Next(w, ClientSends(Current));
    assert u.cur.toServer == [] + EncodeCommand(k) == EncodeCommand(k) + [];
    assert u.cur.commands == [] + [k] == [k];
  }

  lemma ExchangeRun(steps: seq<Step>, pcm: bytes, pc: Pc) returns (more: seq<Step>)
    requires Quiet(Run(steps), pcm, pc) && NextSend(pc, pcm).Send?
    ensures var w, send := Run(steps), NextSend(pc, pcm);
            && Run(more).srv == Obey(w.srv, w.cur.id, 0, send.command)
            && Run(more).cur == w.cur.(client := Player(pcm, send.next),
                                       reader := if send.command.Start? then Activating else Reading)
  {
    hide Run, Next, NextSend, Obey;
    Exchange(Run(steps), pcm, pc);
    RunSnoc(steps, ClientSends(Current));
    RunSnoc(steps + [ClientSends(Current)], TakeCommand(0));
    more := steps + [ClientSends(Current)] + [TakeCommand(0)];
  }

  /** Everything sent so far has been played. */
  predicate Cruising(w: World, pcm: bytes, offset: nat) {
    && Quiet(w, pcm, Streaming(offset)) && offset <= |pcm| && offset % 2 == 0
    && w.srv.active && !w.srv.stopRequested && w.srv.samples == [] && w.srv.outbound == []
  }

  lemma BootRun(pcm: bytes) returns (steps: seq<Step>)
    ensures Quiet(Run(steps), pcm, ToStart)
    ensures var out := Run(steps).srv.outbound; |out| == 2 && out[0].frame.Hello? && out[1].frame.Status?
  {
    hide Run, SpeakerEntries;
    var run, connect := Environment(OpRun([])), Connect(0, Player(pcm, ToStart));
    assert Run([]) == BOOT by { BootIsEmptyRun(); }
    RunSnoc([], run);
    RunSnoc([] + [run], connect);
    steps := [] + [run] + [connect];
    assert SortedKeys({}) == [];
  }

  lemma BootIsEmptyRun()
    ensures Run([]) == BOOT
  {
  }

  /** The connection's start: hello and status are read while the client waits for "started". */
  lemma StartRun(pcm: bytes) returns (steps: seq<Step>)
    ensures Cruising(Run(steps), pcm, 0)
  {
    hide Run, Next;
    var s0 := BootRun(pcm);
    var s1 := ExchangeRun(s0, pcm, ToStart);
    RunSnoc(s1, Activated(0));
    var s2 := s1 + [Activated(0)];
    Activates(Run(s1), pcm);
    var s3 := DeliverRun(s2, pcm, AwaitStarted);
    var s4 := DeliverRun(s3, pcm, AwaitStarted);
    steps := DeliverRun(s4, pcm, AwaitStarted);
  }

  lemma Activates(w: World, pcm: bytes)
    requires Quiet(w.(cur := w.cur.(reader := Reading)), pcm, AwaitStarted) && w.cur.reader.Activating?
    ensures var v := Next(w, Activated(0));
            && Quiet(v, pcm, AwaitStarted)
            && v.srv.outbound == w.srv.outbound + [Entry(PlaybackStarted(0), FromReader(w.cur.id))]
            && v.srv.active && !v.srv.stopRequested && v.srv.samples == []
  {
  }

  /** One more chunk is sent, accepted and played. */
  lemma ChunkRun(steps: seq<Step>, pcm: bytes, offset: nat) returns (more: seq<Step>)
    requires Cruising(Run(steps), pcm, offset) && offset < |pcm| && |pcm| % 2 == 0
    ensures Cruising(Run(more), pcm, offset + Min(|pcm| - offset, CHUNK_BYTES))
  {
    hide Run, Next, Obey;
    var sent := ExchangeRun(steps, pcm, Streaming(offset));
    RunSnoc(sent, Environment(OpFill(CHUNK_BYTES, 0)));
    more := sent + [Environment(OpFill(CHUNK_BYTES, 0))];
    ChunkIsPlayed(Run(steps).srv, Run(steps).cur.id, pcm, offset);
    FillStep(Run(sent));
  }

  lemma FillStep(w: World)
    ensures Next(w, Environment(OpFill(CHUNK_BYTES, 0))) == w.(srv := Fill(w.srv, CHUNK_BYTES, 0))
  {
  }

  lemma ChunkIsPlayed(s: Server, id: nat, pcm: bytes, offset: nat)
    requires s.active && !s.stopRequested && s.samples == [] && offset < |pcm|
    requires |pcm| % 2 == 0 && offset % 2 == 0
    ensures var k := NextSend(Streaming(offset), pcm).command;
            var t := Fill(Obey(s, id, 0, k), CHUNK_BYTES, 0);
            && t.active && !t.stopRequested && t.samples == [] && t.outbound == s.outbound
            && t.connected == s.connected && t.consumer == s.consumer
  {
    hide Samples;
    var n := Min(|pcm| - offset, CHUNK_BYTES);
    assert DeclaredBytes(n / 2) == n;
    assert [] + Samples(pcm[offset..offset + n]) == Samples(pcm[offset..offset + n]);
  }

  lemma {:induction false} FileRun(steps: seq<Step>, pcm: bytes, offset: nat) returns (more: seq<Step>)
    requires Cruising(Run(steps), pcm, offset) && |pcm| % 2 == 0
    ensures Cruising(Run(more), pcm, |pcm|)
    decreases |pcm| - offset
  {
    hide Run;
    if offset == |pcm| {
      more := steps;
    } else {
      var next := ChunkRun(steps, pcm, offset);
      more := FileRun(next, pcm, offset + Min(|pcm| - offset, CHUNK_BYTES));
    }
  }

  predicate Succeeded(w: World, pcm: bytes) {
    w.cur.client == Player(pcm, Finished(DRAINED))
  }

  lemma FinishRun(pcm: bytes) returns (steps: seq<Step>)
    requires |pcm| % 2 == 0
    ensures Succeeded(Run(steps), pcm)
  {
    hide Run, Next;
    var s0 := StartRun(pcm);
    var s1 := FileRun(s0, pcm, 0);
    var s2 := ExchangeRun(s1, pcm, Streaming(|pcm|));
    steps := DeliverRun(s2, pcm, AwaitStopped);
  }

  /** send_playback_file can succeed on exactly the files with a whole number of samples. */
  lemma SucceedsExactlyWhenEven(pcm: bytes)
    ensures (exists steps :: Succeeded(Run(steps), pcm)) <==> |pcm| % 2 == 0
  {
    hide Run;
    if |pcm| % 2 == 0 {
      var steps := FinishRun(pcm);
      assert Succeeded(Run(steps), pcm);
    }
    forall steps | Succeeded(Run(steps), pcm) ensures |pcm| % 2 == 0 {
      assert LinkAt(Run(steps), Current) == Run(steps).cur;
      PlaybackEndToEnd(steps, Current);
    }
  }

  /** Every WAVE file that the client's reader accepts can be played to the end. */
  lemma AcceptedWaveCanBePlayed(file: bytes)
    requires Wave.ReadWave(file).Good?
    ensures exists steps :: Succeeded(Run(steps), Wave.ReadWave(file).value)
  {
    hide Run, Wave.ReadChunks;
    SucceedsExactlyWhenEven(Wave.ReadWave(file).value);
  }

  // ---------- A "drained" frame that reaches the wrong consumer ----------

  /** A consumer's three commands, left in the socket when its writer fails. */
  const LEFT_BEHIND: seq<Command> := [Start, Chunk(1, [0 as char, 0 as char]), Stop]

  predicate Abandoned(w: World, data: bytes) {
    && !w.srv.connected && w.srv.consumer == None && w.srv.running && w.srv.speakers == map[]
    && w.cur.toServer == data && w.cur.writer.WriterDone?
  }

  /** The consumer is gone, but its reader goes on with what it had been sent. */
  lemma AbandonRun() returns (steps: seq<Step>)
    ensures Abandoned(Run(steps), EncodeCommands(LEFT_BEHIND)) && Run(steps).cur.reader.Reading?
  {
    hide Run, EncodeCommands, EncodeFrame, SpeakerEntries;
    var data := EncodeCommands(LEFT_BEHIND);
    assert Run([]) == BOOT by { BootIsEmptyRun(); }
    var s1 := [] + [Environment(OpRun([]))];
    RunSnoc([], Environment(OpRun([])));
    var s2 := s1 + [Connect(0, Stranger)];
    RunSnoc(s1, Connect(0, Stranger));
    assert Run(s2).srv.outbound != [] && Run(s2).cur.writer.Waiting? && Run(s2).srv.connected;
    var s3 := s2 + [StrangerWrites(Current, data)];
    RunSnoc(s2, StrangerWrites(Current, data));
    assert [] + data == data;
    steps := AbandonTail(s3, data);
  }

  lemma AbandonTail(s3: seq<Step>, data: bytes) returns (steps: seq<Step>)
    requires var w := Run(s3);
             && w.srv.outbound != [] && w.srv.connected && w.srv.consumer == Some(w.cur.id)
             && w.srv.running && w.srv.speakers == map[] && w.cur.toServer == data
             && w.cur.writer.Waiting? && w.cur.reader.Reading?
    ensures Abandoned(Run(steps), data) && Run(steps).cur.reader.Reading?
  {
    hide Run, EncodeFrame;
    RunSnoc(s3, PopFrame);
    RunSnoc(s3 + [PopFrame], WriteFails(0));
    steps := s3 + [PopFrame] + [WriteFails(0)];
    FrameIsNotEmpty(Run(s3).srv.outbound[0].frame);
  }

  lemma FrameIsNotEmpty(f: Frame)
    ensures |EncodeFrame(f)| > 0
  {
  }

  lemma TakeNext(w: World, k: Command, rest: seq<Command>)
    requires Sendable(k) && forall c :: c in rest ==> Sendable(c)
    requires w.cur.reader.Reading? && w.cur.toServer == EncodeCommands([k] + rest)
    ensures var v := Next(w, TakeCommand(0));
            && v.srv == Obey(w.srv, w.cur.id, 0, k)
            && v.cur == w.cur.(toServer := EncodeCommands(rest), commands := Tail(w.cur.commands),
                               reader := if k.Start? then Activating else Reading)
  {
    hide EncodeCommand, ReadCommand, Obey;
    assert ([k] + rest)[1..] == rest;
    ReadCommandExact(k, EncodeCommands(rest));
  }

  /** The abandoned commands are carried out: playback runs, with a stop pending, for nobody. */
  lemma GhostRun() returns (steps: seq<Step>)
    ensures var w := Run(steps);
            && Abandoned(w, []) && w.cur.reader.ReaderDone?
            && w.srv.active && w.srv.stopRequested && |w.srv.samples| == 1
  {
    hide Run, EncodeCommands, Next;
    var s0 := AbandonRun();
    var chunk := LEFT_BEHIND[1];
    assert LEFT_BEHIND == [Start] + [chunk, Stop];
    TakeNext(Run(s0), Start, [chunk, Stop]);
    RunSnoc(s0, TakeCommand(0));
    var s1 := s0 + [TakeCommand(0)];
    BeginsForNobody(Run(s1));
    RunSnoc(s1, Activated(0));
    var s2 := s1 + [Activated(0)];
    assert [chunk, Stop] == [chunk] + [Stop];
    TakeNext(Run(s2), chunk, [Stop]);
    RunSnoc(s2, TakeCommand(0));
    var s3 := s2 + [TakeCommand(0)];
    QueuesForNobody(Run(s2).srv, Run(s2).cur.id, chunk);
    assert [Stop] == [Stop] + [];
    TakeNext(Run(s3), Stop, []);
    RunSnoc(s3, TakeCommand(0));
    var s4 := s3 + [TakeCommand(0)];
    RunSnoc(s4, ReaderEnds);
    steps := s4 + [ReaderEnds];
    LeavesQuietly(Run(s4));
    NoCommandsNoBytes();
  }

  lemma NoCommandsNoBytes()
    ensures EncodeCommands([]) == []
  {
  }

  lemma BeginsForNobody(w: World)
    requires w.cur.reader.Activating?
    ensures var v := Next(w, Activated(0));
            && v.srv.active && !v.srv.stopRequested && v.srv.samples == []
            && v.srv.connected == w.srv.connected && v.srv.consumer == w.srv.consumer
            && v.srv.running == w.srv.running && v.srv.speakers == w.srv.speakers
            && v.cur == w.cur.(reader := Reading)
  {
  }

  lemma QueuesForNobody(s: Server, id: nat, chunk: Command)
    requires chunk == LEFT_BEHIND[1] && s.active && s.samples == [] && !s.stopRequested
    ensures var t := Obey(s, id, 0, chunk);
            && t == s.(samples := t.samples, ledger := t.ledger) && |t.samples| == 1
  {
    assert [] + Samples(chunk.payload) == Samples(chunk.payload);
  }

  lemma LeavesQuietly(w: World)
    requires w.cur.reader.Reading? && w.srv.consumer == None
    ensures Next(w, ReaderEnds) == w.(cur := w.cur.(reader := ReaderDone))
  {
  }

  /** What the machine does not promise: a "drained" frame may be sent to a consumer that has
      not sent a single command, when playback that was started for an earlier consumer ends. */
  lemma DrainedForAnother()
    ensures exists steps :: var w := Run(steps);
              && w.srv.connected && w.cur.commands == [] && w.cur.toServer == [] && w.cur.taken == 0
              && exists i :: 0 <= i < |w.srv.outbound| && w.srv.outbound[i].frame == PlaybackStopped(0, DRAINED)
  {
    hide Run;
    var s0 := GhostRun();
    var s1 := s0 + [Connect(0, Stranger)];
    RunSnoc(s0, Connect(0, Stranger));
    var w := Run(s1);
    assert w.srv.connected && w.srv.active && w.srv.stopRequested && |w.srv.samples| == 1;
    var fill := Environment(OpFill(1, 0));
    RunSnoc(s1, fill);
    var v := Run(s1 + [fill]);
    DrainsForNewcomer(w);
    assert v.srv.outbound[|w.srv.outbound|].frame == PlaybackStopped(0, DRAINED);
  }

  lemma DrainsForNewcomer(w: World)
    requires w.srv.connected && w.srv.active && w.srv.stopRequested && |w.srv.samples| == 1
    ensures var v := Next(w, Environment(OpFill(1, 0)));
            && v.cur == w.cur && v.srv.connected
            && v.srv.outbound == w.srv.outbound + [Entry(PlaybackStopped(0, DRAINED), FromAudio)]
  {
  }

  // ---------- Exactly when a newcomer hears of a stop it did not ask for ----------

  /** The current consumer sends nothing. */
  predicate Silent(steps: seq<Step>) {
    forall i :: 0 <= i < |steps| ==> steps[i] != ClientSends(Current) &&
                                     !(steps[i].StrangerWrites? && steps[i].link.Current?)
  }

  predicate AnyStop(es: seq<Entry>) {
    exists i :: 0 <= i < |es| && es[i].frame.PlaybackStopped?
  }

  /** The consumer was told that playback stopped, or will be. */
  predicate ToldStop(w: World) {
    AnyStop(w.cur.sent) || AnyStop(Held(w.cur.writer)) || AnyStop(w.srv.outbound)
  }

  /** As long as connection `id` is the current one, no stop is pending or told. */
  predicate Undisturbed(w: World, id: nat) {
    && id < w.nextId
    && (w.cur.id == id ==>
          w.cur.toServer == [] && !w.cur.reader.Activating? && !w.srv.stopRequested && !ToldStop(w))
  }

  lemma AnyStopAppend(a: seq<Entry>, b: seq<Entry>)
    ensures AnyStop(a + b) <==> AnyStop(a) || AnyStop(b)
  {
    if i :| 0 <= i < |a| && a[i].frame.PlaybackStopped? {
      assert (a + b)[i] == a[i];
    }
    if i :| 0 <= i < |b| && b[i].frame.PlaybackStopped? {
      assert (a + b)[|a| + i] == b[i];
    }
  }

  lemma EnvironmentTellsNoStop(s: Server, op: Op)
    requires IsEnvironment(op) && !s.stopRequested && !AnyStop(s.outbound)
    ensures !Do(s, op).stopRequested && !AnyStop(Do(s, op).outbound)
  {
  }

  lemma NothingToTake(w: World, at: int)
    requires w.cur.toServer == []
    ensures DoTakeCommand(w, at) == w
  {
  }

  lemma PopTellsNothingNew(w: World)
    requires !ToldStop(w)
    ensures !ToldStop(DoPopFrame(w)) && !ToldStop(DoWriteFrame(w))
  {
    hide EncodeFrame;
    if w.srv.outbound != [] {
      assert w.srv.outbound == [w.srv.outbound[0]] + w.srv.outbound[1..];
      AnyStopAppend([w.srv.outbound[0]], w.srv.outbound[1..]);
    }
    AnyStopAppend(w.cur.sent, Held(w.cur.writer));
  }

  lemma UndisturbedMove(w: World, step: Step, id: nat)
    requires Undisturbed(w, id) && Silent([step]) && IsClientStep(step)
    ensures Undisturbed(Next(w, step), id)
  {
    ClientStepIsMove(w, step);
    assert [step][0] == step;
  }

  lemma UndisturbedConnect(w: World, at: int, client: Client, id: nat)
    requires Undisturbed(w, id)
    ensures Undisturbed(DoConnect(w, at, client), id)
  {
    hide Install;
  }

  lemma UndisturbedStep(w: World, step: Step, id: nat)
    requires Undisturbed(w, id) && Silent([step])
    ensures Undisturbed(Next(w, step), id)
  {
    hide Silent, Do, ReadCommand, EncodeFrame, ToldStop, DoTakeCommand, DoConnect, AnyStop;
    match step
    case Connect(at, client) => UndisturbedConnect(w, at, client, id);
    case TakeCommand(at) => if w.cur.id == id { NothingToTake(w, at); } else { KeepsId(w, step); }
    case Environment(op) =>
      if IsEnvironment(op) && w.cur.id == id { EnvironmentQuiet(w, op); }
    case PopFrame => if w.cur.id == id { PopTellsNothingNew(w); }
    case WriteFrame => if w.cur.id == id { PopTellsNothingNew(w); }
    case ReaderEnds => if w.cur.id == id { GoingTellsNothing(w, step); }
    case WriteFails(_) => if w.cur.id == id { GoingTellsNothing(w, step); }
    case WriterEnds => if w.cur.id == id { GoingTellsNothing(w, step); }
    case BridgeStops => if w.cur.id == id { GoingTellsNothing(w, step); }
    case Activated(_) =>
    case ActivationFailed(_, _, _) =>
    case _ => UndisturbedMove(w, step, id);
  }

  lemma KeepsId(w: World, step: Step)
    requires step.TakeCommand?
    ensures Next(w, step).cur.id == w.cur.id && Next(w, step).nextId == w.nextId
  {
  }

  lemma EnvironmentQuiet(w: World, op: Op)
    requires IsEnvironment(op) && !w.srv.stopRequested && !ToldStop(w)
    ensures var v := w.(srv := Do(w.srv, op)); !v.srv.stopRequested && !ToldStop(v)
  {
    hide Do, AnyStop;
    EnvironmentTellsNoStop(w.srv, op);
  }

  lemma GoingTellsNothing(w: World, step: Step)
    requires !w.srv.stopRequested && !ToldStop(w) && !w.cur.reader.Activating?
    requires step.ReaderEnds? || step.WriteFails? || step.WriterEnds? || step.BridgeStops?
    ensures var v := Next(w, step);
            && !v.srv.stopRequested && !ToldStop(v) && !v.cur.reader.Activating?
            && v.cur.toServer == w.cur.toServer && v.cur.id == w.cur.id && v.nextId == w.nextId
  {
    hide EncodeFrame;
  }

  lemma {:induction false} StaysUndisturbed(start: seq<Step>, more: seq<Step>, id: nat)
    requires Undisturbed(Run(start), id) && Silent(more)
    ensures Undisturbed(Run(start + more), id)
  {
    hide Run, Next, Undisturbed;
    if more == [] {
      assert start + more == start;
    } else {
      var n := |more| - 1;
      StaysUndisturbed(start, more[..n], id);
      assert start + more == start + more[..n] + [more[n]];
      RunSnoc(start + more[..n], more[n]);
      UndisturbedStep(Run(start + more[..n]), more[n], id);
    }
  }

  lemma NewcomerUndisturbed(w: World, at: int, client: Client)
    requires w.srv.running && Starting(client) && !w.srv.connected && !w.srv.stopRequested
    requires w.cur.reader.ReaderDone? && w.cur.writer.WriterDone?
    ensures Undisturbed(DoConnect(w, at, client), w.nextId)
  {
    InstalledGreeting(w.srv, w.nextId, at);
  }

  lemma DrainsAtOnce(w: World, at: int, client: Client)
    requires w.srv.running && Starting(client) && !w.srv.connected && w.srv.stopRequested && w.srv.active
    requires w.cur.reader.ReaderDone? && w.cur.writer.WriterDone?
    ensures var v := DoConnect(w, at, client);
            var u := Next(v, Environment(OpFill(|v.srv.samples|, at)));
            u.cur.id == w.nextId && ToldStop(u)
  {
    hide Greeting;
    var v := DoConnect(w, at, client);
    var u := Next(v, Environment(OpFill(|v.srv.samples|, at)));
    assert u.srv.outbound[|v.srv.outbound|].frame.PlaybackStopped?;
  }

  /** The condition, over every run: a newcomer that sends nothing can be told that playback
      stopped exactly when a stop was still pending at the moment it was accepted. */
  lemma StrayDrainExactlyWhenPending(steps: seq<Step>, at: int, client: Client)
    requires Run(steps).srv.running && Starting(client) && !Run(steps).srv.connected
    requires Run(steps).cur.reader.ReaderDone? && Run(steps).cur.writer.WriterDone?
    ensures (exists more :: Silent(more) && var w := Run(steps + [Connect(at, client)] + more);
                            w.cur.id == Run(steps).nextId && ToldStop(w)) <==>
            Run(steps).srv.stopRequested
  {
    hide Run, DoConnect, ToldStop, Undisturbed;
    var start, id := steps + [Connect(at, client)], Run(steps).nextId;
    RunSnoc(steps, Connect(at, client));
    assert Run(start) == DoConnect(Run(steps), at, client);
    if Run(steps).srv.stopRequested {
      PendingStopIsActive(steps);
      DrainsAtOnce(Run(steps), at, client);
      var fill := Environment(OpFill(|Run(start).srv.samples|, at));
      RunSnoc(start, fill);
      assert Silent([fill]);
    } else {
      NewcomerUndisturbed(Run(steps), at, client);
      forall more | Silent(more) && Run(start + more).cur.id == id ensures !ToldStop(Run(start + more)) {
        StaysUndisturbed(start, more, id);
        UndisturbedTells(Run(start + more), id);
      }
    }
  }

  lemma UndisturbedTells(w: World, id: nat)
    requires Undisturbed(w, id) && w.cur.id == id
    ensures !ToldStop(w)
  {
  }

  /** A pending stop belongs to playback that is active. */
  lemma PendingStopIsActive(steps: seq<Step>)
    ensures Run(steps).srv.stopRequested ==> Run(steps).srv.active
  {
    hide Run, Streams, Fine;
    AlwaysGood(steps);
  }
}
