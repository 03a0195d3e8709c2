/** What the host publishes through the media bridge, over whole runs: which speakers are known,
    and what becomes of every chunk of audio. */
module MediaPublish {
  import opened Bytes
  import opened Wire
  import opened MediaFrames
  import opened MediaState
  import opened PlaybackTrack
  import opened MediaWorld
  import opened MediaTheorems

  // ---------- Speakers ----------

  /** The speakers that were started and not stopped since the bridge was started. */
  ghost function Speaking(steps: seq<Step>): map<bytes, Speaker> {
    if steps == [] then map[]
    else
      var known, w := Speaking(steps[..|steps| - 1]), Run(steps[..|steps| - 1]);
      match steps[|steps| - 1]
      case Environment(OpSpeakerStart(_, sp)) => known[SpeakerKey(sp) := sp]
      case Environment(OpSpeakerStop(_, sp)) => known - {SpeakerKey(sp)}
      case BridgeStops =>
        if w.srv.running && w.cur.reader.ReaderDone? && w.cur.writer.WriterDone? then map[] else known
      case _ => known
  }

  lemma ReaderKeepsSpeakers(w: World, step: Step)
    requires step.TakeCommand? || step.Activated? || step.ActivationFailed? || step.ReaderEnds?
    ensures Next(w, step).srv.speakers == w.srv.speakers
  {
    hide ReadCommand, Obey;
    if step.TakeCommand? && w.cur.reader.Reading? && ReadCommand(w.cur.toServer).CommandGot? {
      ObeyOwn(w.srv, w.cur.id, step.at, ReadCommand(w.cur.toServer).command);
    }
  }

  lemma WriterKeepsSpeakers(w: World, step: Step)
    requires step.PopFrame? || step.WriteFrame? || step.WriteFails? || step.WriterEnds? || step.Connect?
    ensures Next(w, step).srv.speakers == w.srv.speakers
  {
    hide EncodeFrame, Greeting;
  }

  lemma BlocksKeepSpeakers(s: Server, op: Op)
    requires IsEnvironment(op) && !op.OpSpeakerStart? && !op.OpSpeakerStop?
    ensures Do(s, op).speakers == s.speakers
  {
  }

  lemma OthersKeepSpeakers(w: World, step: Step)
    requires !step.BridgeStops?
    requires step.Environment? ==> !step.op.OpSpeakerStart? && !step.op.OpSpeakerStop?
    ensures Next(w, step).srv.speakers == w.srv.speakers
  {
    if IsClientStep(step) {
      ClientStepIsMove(w, step);
    } else {
      hide Do, DoConnect, DoTakeCommand, DoActivated, DoActivationFailed, DoReaderEnds, DoPopFrame, DoWriteFrame,
        DoWriteFails, DoWriterEnds, DoBridgeStops;
      match step
      case Environment(op) => if IsEnvironment(op) { BlocksKeepSpeakers(w.srv, op); }
      case TakeCommand(_) => ReaderKeepsSpeakers(w, step);
      case Activated(_) => ReaderKeepsSpeakers(w, step);
      case ActivationFailed(_, _, _) => ReaderKeepsSpeakers(w, step);
      case ReaderEnds => ReaderKeepsSpeakers(w, step);
      case _ => WriterKeepsSpeakers(w, step);
    }
  }

  lemma StopForgetsSpeakers(w: World)
    ensures Next(w, BridgeStops).srv.speakers ==
            if w.srv.running && w.cur.reader.ReaderDone? && w.cur.writer.WriterDone? then map[] else w.srv.speakers
  {
  }

  lemma PublishingSpeakers(w: World, at: int, sp: Speaker)
    ensures Next(w, Environment(OpSpeakerStart(at, sp))).srv.speakers == w.srv.speakers[SpeakerKey(sp) := sp]
    ensures Next(w, Environment(OpSpeakerStop(at, sp))).srv.speakers == w.srv.speakers - {SpeakerKey(sp)}
  {
  }

  /** The bridge knows exactly the speakers that were published, whatever its consumers do; with
      SpeakerMirror, so does every consumer that reads what it is sent. */
  lemma {:induction false} SpeakersArePublished(steps: seq<Step>)
    ensures Run(steps).srv.speakers == Speaking(steps)
  {
    if steps != [] {
      hide Next, SpeakerKey;
      var n := |steps| - 1;
      var w, step := Run(steps[..n]), steps[n];
      SpeakersArePublished(steps[..n]);
      if step.BridgeStops? {
        StopForgetsSpeakers(w);
      } else if step.Environment? && (step.op.OpSpeakerStart? || step.op.OpSpeakerStop?) {
        PublishingSpeakers(w, step.op.at, step.op.speaker);
      } else {
        OthersKeepSpeakers(w, step);
      }
    }
  }

  // ---------- Audio ----------

  /** One chunk of audio published while a consumer is connected; it is dropped if 256 frames or
      more are waiting. */
  datatype Offer = Offer(frame: Frame, dropped: bool)

  function AudioFrame(op: Op): Frame
    requires op.OpAudio?
  {
    AudioChunk(op.at, op.speaker, op.rate, op.channels, op.sampleCount, op.payload)
  }

  /** The chunks published for the current consumer. */
  ghost function Offers(steps: seq<Step>): seq<Offer> {
    if steps == [] then []
    else
      var offers, w := Offers(steps[..|steps| - 1]), Run(steps[..|steps| - 1]);
      var step := steps[|steps| - 1];
      if step.Environment? && step.op.OpAudio? && w.srv.connected then
        offers + [Offer(AudioFrame(step.op), |w.srv.outbound| >= 256)]
      else if step.Connect? && Run(steps).cur.id != w.cur.id then []
      else offers
  }

  /** How many chunks were dropped in the whole run. */
  ghost function DroppedCount(steps: seq<Step>): nat {
    if steps == [] then 0
    else
      var count, w := DroppedCount(steps[..|steps| - 1]), Run(steps[..|steps| - 1]);
      var step := steps[|steps| - 1];
      if step.Environment? && step.op.OpAudio? && w.srv.connected && |w.srv.outbound| >= 256 then count + 1 else count
  }

  function Kept(offers: seq<Offer>): seq<Frame> {
    if offers == [] then []
    else
      var last := offers[|offers| - 1];
      Kept(offers[..|offers| - 1]) + if last.dropped then [] else [last.frame]
  }

  function AudioIn(es: seq<Entry>): seq<Frame> {
    if es == [] then []
    else AudioIn(es[..|es| - 1]) + if es[|es| - 1].frame.AudioChunk? then [es[|es| - 1].frame] else []
  }

  lemma {:induction false} AudioInAppend(a: seq<Entry>, b: seq<Entry>)
    ensures AudioIn(a + b) == AudioIn(a) + AudioIn(b)
  {
    if b == [] {
      assert a + b == a;
    } else {
      var n := |b| - 1;
      assert (a + b)[..|a + b| - 1] == a + b[..n] && (a + b)[|a + b| - 1] == b[n];
      AudioInAppend(a, b[..n]);
    }
  }

  lemma AudioInOne(e: Entry)
    ensures AudioIn([e]) == if e.frame.AudioChunk? then [e.frame] else []
  {
    assert [e][..0] == [];
  }

  /** Everything of the current consumer's stream: written, held by the writer, and waiting. */
  function Stream(w: World): seq<Entry> {
    w.cur.sent + Held(w.cur.writer) + w.srv.outbound
  }

  predicate NoAudioAdded(s: Server, t: Server) {
    && t.droppedAudio == s.droppedAudio && t.connected == s.connected
    && (t.outbound == s.outbound ||
        (|t.outbound| == |s.outbound| + 1 && t.outbound[..|s.outbound|] == s.outbound &&
         !t.outbound[|s.outbound|].frame.AudioChunk?))
  }

  lemma NoAudioInStream(w: World, v: World)
    requires NoAudioAdded(w.srv, v.srv) && v.cur.sent == w.cur.sent && v.cur.writer == w.cur.writer
    ensures AudioIn(Stream(v)) == AudioIn(Stream(w))
  {
    if v.srv.outbound != w.srv.outbound {
      var n := |w.srv.outbound|;
      assert v.srv.outbound == w.srv.outbound + [v.srv.outbound[n]];
      assert Stream(v) == Stream(w) + [v.srv.outbound[n]];
      AudioInAppend(Stream(w), [v.srv.outbound[n]]);
      AudioInOne(v.srv.outbound[n]);
    }
  }

  lemma ObeyAddsNoAudio(s: Server, link: nat, at: int, c: Command)
    ensures NoAudioAdded(s, Obey(s, link, at, c))
  {
    hide Samples, DeclaredBytes, StatusFrame;
    assert StatusFrame(s, at).Status? by { StatusIsStatus(s, at); }
  }

  lemma BlocksAddNoAudio(s: Server, op: Op)
    requires IsEnvironment(op) && !op.OpAudio?
    ensures NoAudioAdded(s, Do(s, op))
  {
    hide SpeakerKey;
  }

  lemma ReaderAddsNoAudio(w: World, step: Step)
    requires step.TakeCommand? || step.Activated? || step.ActivationFailed?
    ensures var v := Next(w, step);
            NoAudioAdded(w.srv, v.srv) && v.cur.sent == w.cur.sent && v.cur.writer == w.cur.writer
  {
    hide Obey, ReadCommand;
    if step.TakeCommand? && w.cur.reader.Reading? && ReadCommand(w.cur.toServer).CommandGot? {
      ObeyAddsNoAudio(w.srv, w.cur.id, step.at, ReadCommand(w.cur.toServer).command);
    }
  }

  lemma WriterKeepsStream(w: World, step: Step)
    requires step.PopFrame? || step.WriteFrame? || step.WriterEnds?
    ensures var v := Next(w, step);
            && Stream(v) == Stream(w) && v.srv.droppedAudio == w.srv.droppedAudio
            && v.srv.connected == w.srv.connected && v.cur.id == w.cur.id
  {
    hide EncodeFrame;
  }

  lemma EndsDisconnect(w: World, step: Step)
    requires Sound(w) && (step.ReaderEnds? || step.WriteFails? || step.BridgeStops?)
    ensures var v := Next(w, step);
            && (v == w || !v.srv.connected) && v.srv.droppedAudio == w.srv.droppedAudio
  {
    hide EncodeFrame, Consistent;
  }

  lemma ConnectStartsEmpty(w: World, at: int, client: Client)
    requires Numbered(w)
    ensures var v := DoConnect(w, at, client);
            && v.srv.droppedAudio == w.srv.droppedAudio
            && (v.cur.id != w.cur.id ==> AudioIn(Stream(v)) == [])
            && (v.cur.id == w.cur.id ==> v.srv == w.srv && Stream(v) == Stream(w))
  {
    hide Install;
    var v := DoConnect(w, at, client);
    if v.cur.id != w.cur.id {
      GreetingHasNoAudio(w.srv, w.nextId, at);
      assert Stream(v) == v.srv.outbound;
    }
  }

  lemma GreetingHasNoAudio(s: Server, link: nat, at: int)
    requires !s.connected
    ensures AudioIn(Install(s, link, at).outbound) == [] && Install(s, link, at).droppedAudio == s.droppedAudio
  {
    hide SortedKeys, StatusFrame;
    var t := s.(consumer := Some(link), connected := true, outbound := []);
    StatusIsStatus(t, at);
    SilentEntries(Greeting(t, link, at));
  }

  lemma {:induction false} SilentEntries(es: seq<Entry>)
    requires forall i :: 0 <= i < |es| ==> !es[i].frame.AudioChunk?
    ensures AudioIn(es) == []
  {
    if es != [] {
      SilentEntries(es[..|es| - 1]);
    }
  }

  lemma PublishedAudio(w: World, op: Op)
    requires op.OpAudio?
    ensures var v, f := Next(w, Environment(op)), AudioFrame(op);
            && v.cur == w.cur && v.srv.connected == w.srv.connected
            && (if w.srv.connected && |w.srv.outbound| < 256 then
                  AudioIn(Stream(v)) == AudioIn(Stream(w)) + [f] && v.srv.droppedAudio == w.srv.droppedAudio
                else
                  Stream(v) == Stream(w) &&
                  v.srv.droppedAudio == w.srv.droppedAudio + if w.srv.connected then 1 else 0)
  {
    hide AudioIn;
    var v, f := Next(w, Environment(op)), AudioFrame(op);
    AudioQueuedOrDropped(w.srv, f);
    if w.srv.connected && |w.srv.outbound| < 256 {
      var e := Entry(f, FromPublisher);
      assert Stream(v) == Stream(w) + [e];
      AudioInAppend(Stream(w), [e]);
      AudioInOne(e);
    }
  }

  /** What one step does to the current consumer's audio. */
  lemma AudioStep(w: World, step: Step)
    requires Sound(w) && Numbered(w)
    ensures var v := Next(w, step);
            if step.Environment? && step.op.OpAudio? && w.srv.connected then
              if |w.srv.outbound| >= 256 then
                AudioIn(Stream(v)) == AudioIn(Stream(w)) && v.srv.droppedAudio == w.srv.droppedAudio + 1
              else
                AudioIn(Stream(v)) == AudioIn(Stream(w)) + [AudioFrame(step.op)] &&
                v.srv.droppedAudio == w.srv.droppedAudio
            else
              && v.srv.droppedAudio == w.srv.droppedAudio
              && (v.srv.connected && step.Connect? && v.cur.id != w.cur.id ==> AudioIn(Stream(v)) == [])
              && (v.srv.connected && !(step.Connect? && v.cur.id != w.cur.id) ==>
                    w.srv.connected && AudioIn(Stream(v)) == AudioIn(Stream(w)))
  {
    hide Do, ReadCommand, EncodeFrame, DoConnect, AudioIn, Stream, NoAudioAdded, Sound, Numbered, DoTakeCommand,
      DoActivated, DoActivationFailed, DoReaderEnds, DoWriteFails, DoBridgeStops, DoPopFrame,
      DoWriteFrame, DoWriterEnds;
    var v := Next(w, step);
    match step
    case Connect(at, client) => ConnectStartsEmpty(w, at, client);
    case TakeCommand(_) => ReaderStepAudio(w, step);
    case Activated(_) => ReaderStepAudio(w, step);
    case ActivationFailed(_, _, _) => ReaderStepAudio(w, step);
    case PopFrame => WriterKeepsStream(w, step);
    case WriteFrame => WriterKeepsStream(w, step);
    case WriterEnds => WriterKeepsStream(w, step);
    case ReaderEnds => EndsDisconnect(w, step);
    case WriteFails(_) => EndsDisconnect(w, step);
    case BridgeStops => EndsDisconnect(w, step);
    case Environment(op) =>
      if op.OpAudio? {
        PublishedAudio(w, op);
      } else {
        EnvironmentAudio(w, op);
      }
    case _ => ClientStepAudio(w, step);
  }

  lemma ReaderStepAudio(w: World, step: Step)
    requires step.TakeCommand? || step.Activated? || step.ActivationFailed?
    ensures var v := Next(w, step);
            && AudioIn(Stream(v)) == AudioIn(Stream(w)) && v.srv.droppedAudio == w.srv.droppedAudio
            && v.srv.connected == w.srv.connected
  {
    hide Next, AudioIn, Stream;
    ReaderAddsNoAudio(w, step);
    NoAudioInStream(w, Next(w, step));
  }

  lemma EnvironmentAudio(w: World, op: Op)
    requires !op.OpAudio?
    ensures var v := Next(w, Environment(op));
            && AudioIn(Stream(v)) == AudioIn(Stream(w)) && v.srv.droppedAudio == w.srv.droppedAudio
            && v.srv.connected == w.srv.connected
  {
    hide Do, AudioIn, Stream;
    if IsEnvironment(op) {
      BlocksAddNoAudio(w.srv, op);
      NoAudioInStream(w, Next(w, Environment(op)));
    }
  }

  lemma ClientStepAudio(w: World, step: Step)
    requires IsClientStep(step)
    ensures var v := Next(w, step); Stream(v) == Stream(w) && v.srv == w.srv
  {
    ClientStepIsMove(w, step);
  }

  lemma KeptSnoc(offers: seq<Offer>, o: Offer)
    ensures Kept(offers + [o]) == Kept(offers) + if o.dropped then [] else [o.frame]
  {
    assert (offers + [o])[..|offers|] == offers;
  }

  lemma RunUnfolds(steps: seq<Step>)
    requires steps != []
    ensures Run(steps) == Next(Run(steps[..|steps| - 1]), steps[|steps| - 1])
  {
    hide Next;
  }

  lemma OffersUnfold(steps: seq<Step>)
    requires steps != []
    ensures var n := |steps| - 1;
            var w, step := Run(steps[..n]), steps[n];
            && Offers(steps) ==
               (if step.Environment? && step.op.OpAudio? && w.srv.connected then
                  Offers(steps[..n]) + [Offer(AudioFrame(step.op), |w.srv.outbound| >= 256)]
                else if step.Connect? && Run(steps).cur.id != w.cur.id then []
                else Offers(steps[..n]))
            && DroppedCount(steps) ==
               DroppedCount(steps[..n]) +
               (if step.Environment? && step.op.OpAudio? && w.srv.connected && |w.srv.outbound| >= 256 then 1 else 0)
  {
    hide Run;
  }

  /** Audio: in every run, what is in the connected consumer's stream, written or still to be
      written, is exactly the audio published since it was accepted, in order and each chunk
      once, without those that found 256 frames waiting; and these are counted. */
  lemma {:induction false} AudioIsSentOrCounted(steps: seq<Step>)
    ensures Run(steps).srv.connected ==> AudioIn(Stream(Run(steps))) == Kept(Offers(steps))
    ensures Run(steps).srv.droppedAudio == DroppedCount(steps)
  {
    if steps == [] {
      BootHasNone();
    } else {
      hide Run, Next, AudioIn, Stream, Sound, Numbered, Streams, Fine, Kept, Offers, DroppedCount;
      var n := |steps| - 1;
      var w, step := Run(steps[..n]), steps[n];
      AudioIsSentOrCounted(steps[..n]);
      AlwaysGood(steps[..n]);
      AlwaysNumbered(steps[..n]);
      RunUnfolds(steps);
      OffersUnfold(steps);
      AudioStep(w, step);
      if step.Environment? && step.op.OpAudio? && w.srv.connected {
        KeptSnoc(Offers(steps[..n]), Offer(AudioFrame(step.op), |w.srv.outbound| >= 256));
      }
      NothingKept();
    }
  }

  lemma BootHasNone()
    ensures !Run([]).srv.connected && Run([]).srv.droppedAudio == DroppedCount([]) == 0
  {
  }

  lemma NothingKept()
    ensures Kept([]) == []
  {
  }

  // ---------- A second consumer ----------

  /** While one consumer is connected another gets one error, is let go, and changes nothing. */
  lemma SecondConsumerIsTurnedAway(w: World, at: int, client: Client)
    requires w.srv.running && w.srv.connected && Starting(client)
    ensures var v := Next(w, Connect(at, client));
            && v.srv == w.srv && v.cur == w.cur && |v.past| == |w.past| + 1 && v.past[..|w.past|] == w.past
            && var l := v.past[|w.past|];
               && l.reader.ReaderDone? && l.writer.WriterDone? && l.client == client
               && ReadFrame(l.toClient).FrameRefused? && ReadFrame(l.toClient).code == "client_busy"
               && ReadFrame(l.toClient).rest == []
  {
    hide EncodeFrame, ReadFrame;
    var f := BusyEntry(at, w.nextId).frame;
    ReadFrameExact(f, []);
    assert EncodeFrame(f) + [] == EncodeFrame(f);
  }
}
