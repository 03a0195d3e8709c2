/** The media bridge with its threads, its connections and their clients, as one machine.
    Every step is one locked block, one read or write on a socket, or one move of a client. */
module MediaWorld {
  import opened Bytes
  import opened Wire
  import opened MediaFrames
  import opened MediaState
  import opened PlaybackTrack

  // ---------- State ----------

  /** reader_loop: waiting for a command, carrying out playback.start outside the lock, or over. */
  datatype Reader = Reading | Activating | ReaderDone

  /** writer_loop: waiting for a frame, holding one that is popped but not written, or over. */
  datatype Writer = Waiting | Holding(entry: Entry) | WriterDone

  /** Who is at the other end: send_playback_file, or a program we know nothing about. */
  datatype Client = Player(pcm: bytes, pc: Pc) | Stranger

  /** A write that failed after `cut` bytes of a frame. */
  datatype Torn = Torn(frame: Frame, cut: nat)

  /** One connection. `toServer` and `toClient` are the bytes on their way. The rest is history
      or the far end: the commands and frames those bytes stand for, what the consumer was
      greeted with, and the ledger at the moment the next consumer was installed. */
  datatype Link = Link(
    id: nat,
    toServer: bytes,
    commands: seq<Command>,
    toClient: bytes,
    sent: seq<Entry>,
    taken: nat,
    torn: Option<Torn>,
    reader: Reader,
    writer: Writer,
    client: Client,
    greeting: seq<Entry>,
    ledger: Ledger)

  datatype World = World(srv: Server, cur: Link, past: seq<Link>, nextId: nat)

  const NO_LEDGER: Ledger := Ledger([], [], [])
  const NO_LINK: Link := Link(0, [], [], [], [], 0, None, ReaderDone, WriterDone, Stranger, [], NO_LEDGER)
  const BOOT: World := World(INITIAL, NO_LINK, [], 1)

  function Held(writer: Writer): seq<Entry> {
    if writer.Holding? then [writer.entry] else []
  }

  // ---------- Steps ----------

  /** A connection: the current one, or the i-th archived one. */
  datatype Where = Current | Past(i: nat)

  datatype Step =
    | Connect(at: int, client: Client)
    | TakeCommand(at: int)
    | Activated(at: int)
    | ActivationFailed(at: int, code: bytes, message: bytes)
    | ReaderEnds
    | PopFrame
    | WriteFrame
    | WriteFails(cut: nat)
    | WriterEnds
    | Environment(op: Op)
    | BridgeStops
    | ClientSends(link: Where)
    | ClientReads(link: Where)
    | ClientGivesUp(link: Where)
    | StrangerWrites(link: Where, data: bytes)
    | StrangerReads(link: Where, count: nat)

  const CLIENT_BUSY: bytes := "client_busy"
  const BUSY_MESSAGE: bytes := "media bridge already has an active consumer"

  function BusyEntry(at: int, id: nat): Entry {
    Entry(ErrorFrame(at, CLIENT_BUSY, BUSY_MESSAGE), FromAcceptor(id))
  }

  /** A connection turned away: it gets one error frame and is closed. */
  function Refused(id: nat, at: int, client: Client): Link {
    var e := BusyEntry(at, id);
    Link(id, [], [], EncodeFrame(e.frame), [e], 0, None, ReaderDone, WriterDone, client, [e], NO_LEDGER)
  }

  predicate Starting(client: Client) {
    client.Player? ==> client.pc.ToClear? || client.pc.ToStart?
  }

  /** accept_loop: busy, or the threads of the last connection are joined and the newcomer
      becomes the consumer. */
  ghost function DoConnect(w: World, at: int, client: Client): World {
    if !w.srv.running || !Starting(client) then w
    else if w.srv.connected then
      w.(past := w.past + [Refused(w.nextId, at, client)], nextId := w.nextId + 1)
    else if w.cur.reader.ReaderDone? && w.cur.writer.WriterDone? then
      var s := Install(w.srv, w.nextId, at);
      World(s,
            Link(w.nextId, [], [], [], [], 0, None, Reading, Waiting, client, s.outbound, NO_LEDGER),
            w.past + [w.cur.(ledger := w.srv.ledger)],
            w.nextId + 1)
    else w
  }

  function Tail<T>(s: seq<T>): seq<T> {
    if s == [] then [] else s[1..]
  }

  /** reader_loop takes one command off the socket and, unless it is a start, obeys it. */
  function DoTakeCommand(w: World, at: int): World {
    if !w.cur.reader.Reading? then w
    else
      match ReadCommand(w.cur.toServer)
      case CommandIncomplete => w
      case CommandGot(k, rest) =>
        w.(srv := Obey(w.srv, w.cur.id, at, k),
           cur := w.cur.(toServer := rest, commands := Tail(w.cur.commands),
                         reader := if k.Start? then Activating else Reading))
  }

  function DoActivated(w: World, at: int): World {
    if !w.cur.reader.Activating? then w
    else w.(srv := BeginPlayback(w.srv, w.cur.id, at), cur := w.cur.(reader := Reading))
  }

  function DoActivationFailed(w: World, at: int, code: bytes, message: bytes): World {
    if !w.cur.reader.Activating? then w
    else w.(srv := Refuse(w.srv, w.cur.id, at, code, message), cur := w.cur.(reader := Reading))
  }

  /** The reader leaves its loop (end of stream, or asked to stop) and disconnects. */
  function DoReaderEnds(w: World): World {
    if !w.cur.reader.Reading? then w
    else w.(srv := Disconnect(w.srv, w.cur.id), cur := w.cur.(reader := ReaderDone))
  }

  function DoPopFrame(w: World): World {
    if !w.cur.writer.Waiting? || !w.srv.connected || w.srv.outbound == [] then w
    else w.(srv := w.srv.(outbound := w.srv.outbound[1..]),
            cur := w.cur.(writer := Holding(w.srv.outbound[0])))
  }

  function DoWriteFrame(w: World): World {
    if !w.cur.writer.Holding? then w
    else
      var e := w.cur.writer.entry;
      w.(cur := w.cur.(writer := Waiting, sent := w.cur.sent + [e],
                       toClient := w.cur.toClient + EncodeFrame(e.frame)))
  }

  /** write_frame fails part of the way through; the writer disconnects and ends. */
  function DoWriteFails(w: World, cut: nat): World {
    if !w.cur.writer.Holding? || cut >= |EncodeFrame(w.cur.writer.entry.frame)| then w
    else
      var f := w.cur.writer.entry.frame;
      w.(srv := Disconnect(w.srv, w.cur.id),
         cur := w.cur.(writer := WriterDone, torn := Some(Torn(f, cut)),
                       toClient := w.cur.toClient + EncodeFrame(f)[..cut]))
  }

  function DoWriterEnds(w: World): World {
    if w.cur.writer.Waiting? then w.(cur := w.cur.(writer := WriterDone)) else w
  }

  /** Steps of the audio thread, the publishers and the bridge's owner. */
  predicate IsEnvironment(op: Op) {
    op.OpRun? || op.OpFill? || op.OpSpeakerStart? || op.OpSpeakerStop? || op.OpAudio? || op.OpNote?
  }

  ghost function DoEnvironment(w: World, op: Op): World {
    if IsEnvironment(op) then w.(srv := Do(w.srv, op)) else w
  }

  /** MediaBridgeServer::stop, after it joined the threads. */
  function DoBridgeStops(w: World): World {
    if w.srv.running && w.cur.reader.ReaderDone? && w.cur.writer.WriterDone? then w.(srv := Shutdown(w.srv)) else w
  }

  function LinkAt(w: World, at: Where): Link {
    match at
    case Current => w.cur
    case Past(i) => if i < |w.past| then w.past[i] else NO_LINK
  }

  function WithLink(w: World, at: Where, l: Link): World {
    match at
    case Current => w.(cur := l)
    case Past(i) => if i < |w.past| then w.(past := w.past[i := l]) else w
  }

  function LinkSends(l: Link): Link {
    if !l.client.Player? then l
    else
      match NextSend(l.client.pc, l.client.pcm)
      case NothingToSend => l
      case Send(k, next) =>
        l.(client := l.client.(pc := next), commands := l.commands + [k],
           toServer := l.toServer + EncodeCommand(k))
  }

  function LinkReads(l: Link): Link {
    if !l.client.Player? || !Listening(l.client.pc) then l
    else
      var read := ReadFrame(l.toClient);
      var pc := AfterRead(l.client.pc, read);
      match read
      case FrameIncomplete => l
      case FrameInvalid => l.(client := l.client.(pc := pc))
      case FrameRefused(_, _, rest) => l.(client := l.client.(pc := pc), toClient := rest, taken := l.taken + 1)
      case FrameGot(_, rest) => l.(client := l.client.(pc := pc), toClient := rest, taken := l.taken + 1)
  }

  /** A time-out or an I/O error on the client's side. */
  function LinkGivesUp(l: Link): Link {
    if l.client.Player? && !l.client.pc.Finished? then l.(client := l.client.(pc := Failed)) else l
  }

  function LinkStrangerWrites(l: Link, data: bytes): Link {
    if l.client.Stranger? then l.(toServer := l.toServer + data) else l
  }

  function LinkStrangerReads(l: Link, count: nat): Link {
    if l.client.Stranger? && count <= |l.toClient| then l.(toClient := l.toClient[count..]) else l
  }

  ghost function Next(w: World, step: Step): World {
    match step
    case Connect(at, client) => DoConnect(w, at, client)
    case TakeCommand(at) => DoTakeCommand(w, at)
    case Activated(at) => DoActivated(w, at)
    case ActivationFailed(at, code, message) => DoActivationFailed(w, at, code, message)
    case ReaderEnds => DoReaderEnds(w)
    case PopFrame => DoPopFrame(w)
    case WriteFrame => DoWriteFrame(w)
    case WriteFails(cut) => DoWriteFails(w, cut)
    case WriterEnds => DoWriterEnds(w)
    case Environment(op) => DoEnvironment(w, op)
    case BridgeStops => DoBridgeStops(w)
    case ClientSends(at) => WithLink(w, at, LinkSends(LinkAt(w, at)))
    case ClientReads(at) => WithLink(w, at, LinkReads(LinkAt(w, at)))
    case ClientGivesUp(at) => WithLink(w, at, LinkGivesUp(LinkAt(w, at)))
    case StrangerWrites(at, data) => WithLink(w, at, LinkStrangerWrites(LinkAt(w, at), data))
    case StrangerReads(at, count) => WithLink(w, at, LinkStrangerReads(LinkAt(w, at), count))
  }

  /** Every schedule of every thread and client is a sequence of steps. */
  ghost function Run(steps: seq<Step>): World {
    if steps == [] then BOOT else Next(Run(steps[..|steps| - 1]), steps[|steps| - 1])
  }

  // ---------- Invariant 1: the bridge state and the threads ----------

  predicate Sound(w: World) {
    && Consistent(w.srv)
    && (w.srv.connected ==> w.srv.consumer == Some(w.cur.id) && !w.cur.reader.ReaderDone?)
    && (w.cur.torn.Some? ==> w.cur.writer.WriterDone?)
  }

  lemma EnvironmentKeepsConnection(s: Server, op: Op)
    requires IsEnvironment(op)
    ensures Do(s, op).connected == s.connected && Do(s, op).consumer == s.consumer
  {
  }

  /** Nothing but the client, and bytes on their way, differs. */
  predicate SameServerSide(l: Link, m: Link) {
    && l.id == m.id && l.sent == m.sent && l.torn == m.torn && l.reader == m.reader
    && l.writer == m.writer && l.greeting == m.greeting && l.ledger == m.ledger
  }

  predicate IsClientStep(step: Step) {
    step.ClientSends? || step.ClientReads? || step.ClientGivesUp? || step.StrangerWrites? || step.StrangerReads?
  }

  function MovedLink(l: Link, step: Step): (m: Link)
    requires IsClientStep(step)
    ensures SameServerSide(l, m)
  {
    match step
    case ClientSends(_) => LinkSends(l)
    case ClientReads(_) => LinkReads(l)
    case ClientGivesUp(_) => LinkGivesUp(l)
    case StrangerWrites(_, data) => LinkStrangerWrites(l, data)
    case StrangerReads(_, count) => LinkStrangerReads(l, count)
  }

  lemma ClientStepIsMove(w: World, step: Step)
    requires IsClientStep(step)
    ensures Next(w, step) == WithLink(w, step.link, MovedLink(LinkAt(w, step.link), step))
  {
  }

  lemma SoundServerStep(w: World, step: Step)
    requires Sound(w) && !IsClientStep(step)
    ensures Sound(Next(w, step))
  {
    hide Consistent, ReadCommand, Greeting, EncodeFrame;
    match step
    case Connect(at, client) => DoKeepsConsistent(w.srv, OpInstall(w.nextId, at));
    case TakeCommand(at) => SoundTakeCommand(w, at);
    case Activated(at) => DoKeepsConsistent(w.srv, OpBegin(w.cur.id, at));
    case ActivationFailed(at, code, message) =>
      DoKeepsConsistent(w.srv, OpBeginFailed(w.cur.id, at, code, message));
    case ReaderEnds => DoKeepsConsistent(w.srv, OpDisconnect(w.cur.id));
    case WriteFails(cut) => DoKeepsConsistent(w.srv, OpDisconnect(w.cur.id));
    case Environment(op) =>
      if IsEnvironment(op) {
        DoKeepsConsistent(w.srv, op);
        EnvironmentKeepsConnection(w.srv, op);
      }
    case BridgeStops => DoKeepsConsistent(w.srv, OpShutdown);
    case PopFrame => SoundPop(w);
    case WriteFrame =>
    case WriterEnds =>
  }

  lemma SoundStep(w: World, step: Step)
    requires Sound(w)
    ensures Sound(Next(w, step))
  {
    if IsClientStep(step) {
      ClientStepIsMove(w, step);
    } else {
      SoundServerStep(w, step);
    }
  }

  lemma SoundPop(w: World)
    requires Sound(w)
    ensures Sound(DoPopFrame(w))
  {
  }

  lemma SoundTakeCommand(w: World, at: int)
    requires Sound(w)
    ensures Sound(DoTakeCommand(w, at))
  {
    var read := ReadCommand(w.cur.toServer);
    if w.cur.reader.Reading? && read.CommandGot? {
      DoKeepsConsistent(w.srv, OpObey(w.cur.id, at, read.command));
      ObeyAdds(w.srv, w.cur.id, at, read.command);
    }
  }

  // ---------- Invariant 2: what each consumer is sent ----------

  predicate OwnedBy(e: Entry, id: nat) {
    match e.origin
    case FromReader(link) => link == id
    case FromAcceptor(link) => link == id
    case FromAudio => true
    case FromPublisher => true
  }

  predicate AllOwned(es: seq<Entry>, id: nat) {
    forall i :: 0 <= i < |es| ==> OwnedBy(es[i], id)
  }

  /** The stream starts with the greeting, as far as it goes. */
  predicate Agree(stream: seq<Entry>, greeting: seq<Entry>) {
    if |greeting| <= |stream| then greeting <= stream else stream <= greeting
  }

  function Stream(l: Link): seq<Entry> {
    l.sent + Held(l.writer)
  }

  /** Everything the current consumer was sent or is about to be sent. */
  function FullStream(w: World): seq<Entry> {
    if w.srv.connected then Stream(w.cur) + w.srv.outbound else Stream(w.cur)
  }

  function ApplyChange(m: map<bytes, Speaker>, change: Option<SpeakerChange>): map<bytes, Speaker> {
    if change.None? then m
    else if change.value.now.Some? then m[change.value.key := change.value.now.value]
    else m - {change.value.key}
  }

  /** A consumer's picture of who is speaking, made from the frames it is sent. */
  function Mirror(fs: seq<Frame>): map<bytes, Speaker> {
    if fs == [] then map[] else ApplyChange(Mirror(fs[..|fs| - 1]), ChangeOf(fs[|fs| - 1]))
  }

  /** The same picture, made from nothing but the fields the consumer reads. */
  function ReadMirror(lines: seq<Fields>): map<bytes, Speaker> {
    if lines == [] then map[] else ApplyChange(ReadMirror(lines[..|lines| - 1]), ReadSpeaker(lines[|lines| - 1]))
  }

  lemma {:induction false} MirrorIsReadable(fs: seq<Frame>)
    ensures ReadMirror(FieldsOf(fs)) == Mirror(fs)
  {
    if fs != [] {
      var n, lines := |fs| - 1, FieldsOf(fs);
      MirrorIsReadable(fs[..n]);
      assert lines[..n] == FieldsOf(fs[..n]);
      SpeakerFrameReadable(fs[n]);
      assert ReadSpeaker(lines[n]) == ChangeOf(fs[n]);
    }
  }

  function WireSpeakers(speakers: map<bytes, Speaker>): map<bytes, Speaker> {
    map k | k in speakers :: WireSpeaker(speakers[k])
  }

  /** No frame of another connection's threads is in this one's stream. */
  predicate Owned(w: World) {
    AllOwned(Stream(w.cur), w.cur.id) && AllOwned(w.srv.outbound, w.cur.id)
  }

  predicate Greeted(w: World) {
    && Agree(FullStream(w), w.cur.greeting)
    && (w.srv.connected ==> |w.cur.greeting| <= |FullStream(w)|)
    && (w.cur.id != 0 ==> IsGreeting(w.cur.greeting))
  }

  predicate Mirrored(w: World) {
    w.srv.connected ==> Mirror(FramesOf(FullStream(w))) == WireSpeakers(w.srv.speakers)
  }

  predicate IsGreeting(g: seq<Entry>) {
    || (|g| == 1 && g[0].frame.ErrorFrame? && g[0].frame.code == CLIENT_BUSY)
    || (|g| >= 2 && g[0].frame.Hello? && g[1].frame.Status?
        && forall i :: 2 <= i < |g| ==> g[i].frame.SpeakerStart?)
  }

  predicate ArchivedStream(l: Link) {
    && l.reader.ReaderDone? && l.writer.WriterDone?
    && AllOwned(l.sent, l.id)
    && Agree(l.sent, l.greeting)
    && (l.id != 0 ==> IsGreeting(l.greeting))
  }

  predicate Streams(w: World) {
    && Owned(w) && Greeted(w) && Mirrored(w)
    && forall i :: 0 <= i < |w.past| ==> ArchivedStream(w.past[i])
  }

  lemma MirrorAppend(fs: seq<Frame>, f: Frame)
    ensures Mirror(fs + [f]) == ApplyChange(Mirror(fs), ChangeOf(f))
  {
    assert (fs + [f])[..|fs|] == fs;
  }

  /** One more announced speaker in the picture. */
  lemma MirrorAnnounced(head: seq<Frame>, es: seq<Entry>, at: int, sp: Speaker, o: Origin, k: bytes)
    requires SpeakerKey(sp) == k
    ensures Mirror(head + FramesOf(es + [Entry(SpeakerStart(at, sp), o)])) ==
            Mirror(head + FramesOf(es))[k := WireSpeaker(sp)]
  {
    FramesSnoc(head, es, Entry(SpeakerStart(at, sp), o));
    MirrorAppend(head + FramesOf(es), SpeakerStart(at, sp));
  }

  predicate KeyFits(speakers: map<bytes, Speaker>, k: bytes) {
    k in speakers && SpeakerKey(speakers[k]) == k
  }

  function Shown(speakers: map<bytes, Speaker>, keys: seq<bytes>): map<bytes, Speaker>
    requires forall k :: k in keys ==> k in speakers
  {
    map k | k in keys :: WireSpeaker(speakers[k])
  }

  lemma ShownGrows(speakers: map<bytes, Speaker>, keys: seq<bytes>, k: bytes)
    requires k in speakers && forall j :: j in keys ==> j in speakers
    ensures Shown(speakers, keys + [k]) == Shown(speakers, keys)[k := WireSpeaker(speakers[k])]
  {
  }

  /** The greeting brings a new consumer's picture up to date. */
  lemma {:induction false} GreetingMirrors(
      head: seq<Frame>, speakers: map<bytes, Speaker>, link: nat, at: int, keys: seq<bytes>)
    requires Mirror(head) == map[]
    requires forall k :: k in keys ==> k in speakers
    requires forall i :: 0 <= i < |keys| ==> KeyFits(speakers, keys[i])
    ensures Mirror(head + FramesOf(SpeakerEntries(keys, speakers, link, at))) == Shown(speakers, keys)
  {
    if keys == [] {
      assert head + FramesOf([]) == head;
    } else {
      var n := |keys| - 1;
      var init, k := keys[..n], keys[n];
      assert keys == init + [k];
      GreetingMirrors(head, speakers, link, at, init);
      SpeakerEntriesAppend(init, k, speakers, link, at);
      MirrorAnnounced(head, SpeakerEntries(init, speakers, link, at), at, speakers[k], FromAcceptor(link), k);
      ShownGrows(speakers, init, k);
    }
  }

  lemma FramesSnoc(head: seq<Frame>, es: seq<Entry>, e: Entry)
    ensures head + FramesOf(es + [e]) == (head + FramesOf(es)) + [e.frame]
  {
  }

  lemma GreetingHeadIsBlank(a: Frame, b: Frame)
    requires a.Hello? && b.Status?
    ensures Mirror([a, b]) == map[]
  {
    assert [a, b] == [a] + [b] && [a] == [] + [a];
    MirrorAppend([], a);
    MirrorAppend([a], b);
  }

  lemma InstalledMirror(s: Server, link: nat, at: int)
    requires Consistent(s) && !s.connected
    ensures Mirror(FramesOf(Install(s, link, at).outbound)) == WireSpeakers(s.speakers)
  {
    var ready := s.(consumer := Some(link), connected := true, outbound := []);
    var keys := SortedKeys(s.speakers.Keys);
    var hello, status := Hello(at, ready.path), StatusFrame(ready, at);
    GreetingHeadIsBlank(hello, status);
    GreetingMirrors([hello, status], s.speakers, link, at, keys);
    GreetingFrames(ready, link, at);
    AllShown(s.speakers, keys);
  }

  lemma AllShown(speakers: map<bytes, Speaker>, keys: seq<bytes>)
    requires forall k :: k in keys <==> k in speakers
    ensures Shown(speakers, keys) == WireSpeakers(speakers)
  {
  }

  lemma GreetingFrames(s: Server, link: nat, at: int)
    ensures FramesOf(Greeting(s, link, at)) ==
            [Hello(at, s.path), StatusFrame(s, at)] +
            FramesOf(SpeakerEntries(SortedKeys(s.speakers.Keys), s.speakers, link, at))
  {
  }

  lemma InstalledGreeting(s: Server, link: nat, at: int)
    requires !s.connected
    ensures AllOwned(Install(s, link, at).outbound, link)
    ensures IsGreeting(Install(s, link, at).outbound)
  {
  }

  /** The frame a block added, if it added one, is the consumer's own and not about speakers. */
  predicate OwnAddition(s: Server, t: Server, id: nat) {
    && AddsAtMostOne(s, t) && t.speakers == s.speakers
    && (t.outbound != s.outbound ==>
          var e := t.outbound[|s.outbound|];
          OwnedBy(e, id) && !e.frame.SpeakerStart? && !e.frame.SpeakerStop?)
  }

  lemma FullStreamGrows(w: World, s: Server)
    requires AddsAtMostOne(w.srv, s)
    ensures FullStream(w.(srv := s)) ==
            if s.outbound != w.srv.outbound && s.connected
            then FullStream(w) + [s.outbound[|w.srv.outbound|]] else FullStream(w)
  {
  }

  lemma MirrorSnoc(es: seq<Entry>, e: Entry)
    ensures Mirror(FramesOf(es + [e])) == ApplyChange(Mirror(FramesOf(es)), ChangeOf(e.frame))
  {
    assert FramesOf(es + [e]) == FramesOf(es) + [e.frame];
    MirrorAppend(FramesOf(es), e.frame);
  }

  lemma MirroredGrows(w: World, s: Server)
    requires Mirrored(w) && OwnAddition(w.srv, s, w.cur.id)
    ensures Mirrored(w.(srv := s))
  {
    hide Mirror, FramesOf;
    FullStreamGrows(w, s);
    if s.outbound != w.srv.outbound && s.connected {
      MirrorSnoc(FullStream(w), s.outbound[|w.srv.outbound|]);
    }
  }

  lemma GreetedGrows(w: World, s: Server)
    requires Greeted(w) && AddsAtMostOne(w.srv, s)
    ensures Greeted(w.(srv := s))
  {
    FullStreamGrows(w, s);
  }

  lemma StreamsGrow(w: World, s: Server)
    requires Streams(w) && OwnAddition(w.srv, s, w.cur.id)
    ensures Streams(w.(srv := s))
  {
    GreetedGrows(w, s);
    MirroredGrows(w, s);
  }

  lemma StreamsClose(w: World, v: World)
    requires Streams(w) && !v.srv.connected && v.past == w.past
    requires v.srv.outbound == [] || v.srv.outbound == w.srv.outbound
    requires v.cur.id == w.cur.id && v.cur.greeting == w.cur.greeting
    requires Stream(v.cur) <= Stream(w.cur)
    ensures Streams(v)
  {
    assert Stream(v.cur) <= FullStream(w);
  }

  /** Frames moving from queue to writer to socket stay in the stream. */
  lemma StreamsFlow(w: World, v: World)
    requires Streams(w) && v.past == w.past
    requires v.cur.id == w.cur.id && v.cur.greeting == w.cur.greeting
    requires Stream(v.cur) + v.srv.outbound == Stream(w.cur) + w.srv.outbound
    requires v.srv.connected == w.srv.connected && v.srv.speakers == w.srv.speakers
    requires w.srv.connected || Stream(v.cur) == Stream(w.cur)
    ensures Streams(v)
  {
    var all := Stream(v.cur) + v.srv.outbound;
    assert AllOwned(all, w.cur.id);
    assert Stream(v.cur) == all[..|Stream(v.cur)|] && v.srv.outbound == all[|Stream(v.cur)|..];
  }

  lemma RefuseOwn(s: Server, link: nat, at: int, code: bytes, message: bytes)
    ensures OwnAddition(s, Refuse(s, link, at, code, message), link)
  {
    RefuseAdds(s, link, at, code, message);
  }

  lemma ChunkOwn(s: Server, link: nat, at: int, frames: u64, payload: buffer)
    ensures OwnAddition(s, AcceptChunk(s, link, at, frames, payload), link)
  {
    RefuseOwn(s, link, at, INVALID_CHUNK, SIZE_MISMATCH);
    RefuseOwn(s, link, at, PLAYBACK_INACTIVE, INACTIVE);
    RefuseOwn(s.(droppedPlayback := s.droppedPlayback + 1), link, at, QUEUE_FULL, QUEUE_FULL_MESSAGE);
  }

  lemma ObeyOwn(s: Server, link: nat, at: int, k: Command)
    ensures OwnAddition(s, Obey(s, link, at, k), link)
  {
    ObeyAdds(s, link, at, k);
    if k.Chunk? {
      ChunkOwn(s, link, at, k.frames, k.payload);
    }
  }

  lemma MirroredPublish(w: World, f: Frame, s: Server)
    requires Mirrored(w) && AddsAtMostOne(w.srv, s)
    requires w.srv.connected ==> s.outbound == w.srv.outbound + [Entry(f, FromPublisher)]
    requires w.srv.connected ==> WireSpeakers(s.speakers) == ApplyChange(WireSpeakers(w.srv.speakers), ChangeOf(f))
    ensures Mirrored(w.(srv := s))
  {
    hide Mirror, FramesOf, WireSpeakers, ChangeOf;
    FullStreamGrows(w, s);
    if s.connected {
      MirrorSnoc(FullStream(w), Entry(f, FromPublisher));
    }
  }

  lemma StreamsPublish(w: World, f: Frame, s: Server)
    requires Streams(w) && AddsAtMostOne(w.srv, s)
    requires if w.srv.connected then s.outbound == w.srv.outbound + [Entry(f, FromPublisher)]
             else s.outbound == w.srv.outbound
    requires WireSpeakers(s.speakers) == ApplyChange(WireSpeakers(w.srv.speakers), ChangeOf(f))
    ensures Streams(w.(srv := s))
  {
    GreetedGrows(w, s);
    MirroredPublish(w, f, s);
  }

  lemma WireSpeakersUpdate(speakers: map<bytes, Speaker>, sp: Speaker, at: int)
    ensures WireSpeakers(speakers[SpeakerKey(sp) := sp]) ==
            ApplyChange(WireSpeakers(speakers), ChangeOf(SpeakerStart(at, sp)))
    ensures WireSpeakers(speakers - {SpeakerKey(sp)}) ==
            ApplyChange(WireSpeakers(speakers), ChangeOf(SpeakerStop(at, sp)))
  {
  }

  lemma FillOwn(s: Server, count: nat, at: int, id: nat)
    ensures OwnAddition(s, Fill(s, count, at), id)
  {
  }

  lemma StreamsSpeakers(w: World, at: int, sp: Speaker)
    requires Streams(w)
    ensures Streams(w.(srv := PublishStart(w.srv, at, sp)))
    ensures Streams(w.(srv := PublishStop(w.srv, at, sp)))
  {
    WireSpeakersUpdate(w.srv.speakers, sp, at);
    StreamsPublish(w, SpeakerStart(at, sp), PublishStart(w.srv, at, sp));
    StreamsPublish(w, SpeakerStop(at, sp), PublishStop(w.srv, at, sp));
  }

  lemma AudioOwn(s: Server, f: Frame, id: nat)
    requires f.AudioChunk?
    ensures OwnAddition(s, PublishAudio(s, f), id)
  {
    EnqueueAdds(s, f, FromPublisher);
  }

  lemma StreamsEnvironment(w: World, op: Op)
    requires Streams(w) && IsEnvironment(op)
    ensures Streams(w.(srv := Do(w.srv, op)))
  {
    if op.OpSpeakerStart? || op.OpSpeakerStop? {
      StreamsSpeakers(w, op.at, op.speaker);
    } else {
      if op.OpFill? {
        FillOwn(w.srv, op.count, op.at, w.cur.id);
      } else if op.OpAudio? {
        AudioOwn(w.srv, AudioChunk(op.at, op.speaker, op.rate, op.channels, op.sampleCount, op.payload), w.cur.id);
      }
      StreamsGrow(w, Do(w.srv, op));
    }
  }

  lemma StreamsReader(w: World, s: Server, l: Link)
    requires Streams(w) && OwnAddition(w.srv, s, w.cur.id)
    requires l.id == w.cur.id && Stream(l) == Stream(w.cur) && l.greeting == w.cur.greeting
    ensures Streams(w.(srv := s, cur := l))
  {
    StreamsGrow(w, s);
    StreamsFlow(w.(srv := s), w.(srv := s, cur := l));
  }

  lemma StreamsTakeCommand(w: World, at: int)
    requires Streams(w)
    ensures Streams(DoTakeCommand(w, at))
  {
    var read := ReadCommand(w.cur.toServer);
    if w.cur.reader.Reading? && read.CommandGot? {
      ObeyOwn(w.srv, w.cur.id, at, read.command);
      var v := DoTakeCommand(w, at);
      StreamsReader(w, v.srv, v.cur);
    }
  }

  lemma StreamsActivation(w: World, at: int, code: bytes, message: bytes)
    requires Streams(w)
    ensures Streams(DoActivated(w, at))
    ensures Streams(DoActivationFailed(w, at, code, message))
  {
    if w.cur.reader.Activating? {
      var l := w.cur.(reader := Reading);
      StreamsReader(w, BeginPlayback(w.srv, w.cur.id, at), l);
      StreamsReader(w, Refuse(w.srv, w.cur.id, at, code, message), l);
    }
  }

  lemma StreamsPop(w: World)
    requires Streams(w)
    ensures Streams(DoPopFrame(w))
  {
    var v := DoPopFrame(w);
    if v != w {
      assert [w.srv.outbound[0]] + w.srv.outbound[1..] == w.srv.outbound;
      assert Stream(v.cur) + v.srv.outbound == Stream(w.cur) + w.srv.outbound;
      StreamsFlow(w, v);
    }
  }

  lemma StreamsWrite(w: World)
    requires Streams(w)
    ensures Streams(DoWriteFrame(w))
    ensures Streams(DoWriterEnds(w))
  {
    assert Stream(DoWriteFrame(w).cur) == Stream(w.cur);
    StreamsFlow(w, DoWriteFrame(w));
    assert Stream(DoWriterEnds(w).cur) == Stream(w.cur);
    StreamsFlow(w, DoWriterEnds(w));
  }

  lemma StreamsReaderEnds(w: World)
    requires Sound(w) && Streams(w)
    ensures Streams(DoReaderEnds(w))
  {
    var v := DoReaderEnds(w);
    if w.cur.reader.Reading? {
      StreamsClose(w, v);
    }
  }

  lemma StreamsWriteFails(w: World, cut: nat)
    requires Sound(w) && Streams(w)
    ensures Streams(DoWriteFails(w, cut))
  {
    var v := DoWriteFails(w, cut);
    if v != w {
      StreamsClose(w, v);
    }
  }

  lemma StreamsStop(w: World)
    requires Streams(w)
    ensures Streams(DoBridgeStops(w))
  {
    var v := DoBridgeStops(w);
    if w.srv.running && w.cur.reader.ReaderDone? && w.cur.writer.WriterDone? {
      StreamsClose(w, v);
    }
  }

  lemma StreamsRefuse(w: World, at: int, client: Client)
    requires Streams(w)
    ensures Streams(w.(past := w.past + [Refused(w.nextId, at, client)], nextId := w.nextId + 1))
  {
    var l := Refused(w.nextId, at, client);
    assert ArchivedStream(l);
    var v := w.(past := w.past + [l], nextId := w.nextId + 1);
    assert FullStream(v) == FullStream(w);
  }

  lemma StreamsInstall(w: World, v: World, at: int)
    requires Sound(w) && Streams(w) && !w.srv.connected
    requires w.cur.reader.ReaderDone? && w.cur.writer.WriterDone?
    requires v.srv == Install(w.srv, w.nextId, at) && v.past == w.past + [w.cur.(ledger := w.srv.ledger)]
    requires v.cur.id == w.nextId && v.cur.greeting == v.srv.outbound && Stream(v.cur) == []
    ensures Streams(v)
  {
    InstalledGreeting(w.srv, w.nextId, at);
    InstalledMirror(w.srv, w.nextId, at);
    assert FullStream(v) == v.srv.outbound;
    assert Stream(w.cur) == w.cur.sent;
    assert ArchivedStream(w.cur.(ledger := w.srv.ledger));
  }

  lemma StreamsConnect(w: World, at: int, client: Client)
    requires Sound(w) && Streams(w)
    ensures Streams(DoConnect(w, at, client))
  {
    if w.srv.running && Starting(client) {
      if w.srv.connected {
        StreamsRefuse(w, at, client);
      } else if w.cur.reader.ReaderDone? && w.cur.writer.WriterDone? {
        StreamsInstall(w, DoConnect(w, at, client), at);
      }
    }
  }

  lemma StreamsServerStep(w: World, step: Step)
    requires Sound(w) && Streams(w) && !IsClientStep(step)
    ensures Streams(Next(w, step))
  {
    match step
    case Connect(at, client) => StreamsConnect(w, at, client);
    case TakeCommand(at) => StreamsTakeCommand(w, at);
    case Activated(at) => StreamsActivation(w, at, ERROR, ERROR);
    case ActivationFailed(at, code, message) => StreamsActivation(w, at, code, message);
    case ReaderEnds => StreamsReaderEnds(w);
    case PopFrame => StreamsPop(w);
    case WriteFrame => StreamsWrite(w);
    case WriteFails(cut) => StreamsWriteFails(w, cut);
    case WriterEnds => StreamsWrite(w);
    case Environment(op) => if IsEnvironment(op) { StreamsEnvironment(w, op); }
    case BridgeStops => StreamsStop(w);
  }

  lemma StreamsClientStep(w: World, step: Step)
    requires Streams(w) && IsClientStep(step)
    ensures Streams(Next(w, step))
  {
    ClientStepIsMove(w, step);
    StreamsMove(w, step.link, MovedLink(LinkAt(w, step.link), step));
  }

  lemma StreamsMove(w: World, at: Where, l: Link)
    requires Streams(w) && SameServerSide(LinkAt(w, at), l)
    ensures Streams(WithLink(w, at, l))
  {
    if at.Current? {
      StreamsFlow(w, w.(cur := l));
    }
  }

  lemma StreamsStep(w: World, step: Step)
    requires Sound(w) && Streams(w)
    ensures Streams(Next(w, step))
  {
    if IsClientStep(step) {
      StreamsClientStep(w, step);
    } else {
      StreamsServerStep(w, step);
    }
  }

  // ---------- Invariant 3: bytes, frames and commands in step; every client on track ----------

  function TornBytes(torn: Option<Torn>): bytes
    requires torn.Some? ==> torn.value.cut <= |EncodeFrame(torn.value.frame)|
  {
    if torn.None? then [] else EncodeFrame(torn.value.frame)[..torn.value.cut]
  }

  /** The bytes on the way are exactly the encodings of the frames and commands on the way. */
  predicate Lockstep(l: Link) {
    && l.taken <= |l.sent|
    && (l.torn.Some? ==> l.torn.value.cut < |EncodeFrame(l.torn.value.frame)| && l.writer.WriterDone?)
    && l.toClient == EncodeFrames(FramesOf(l.sent[l.taken..])) + TornBytes(l.torn)
    && (forall c :: c in l.commands ==> Sendable(c))
    && l.toServer == EncodeCommands(l.commands)
  }

  function SideOf(l: Link): Side
    requires l.client.Player? && l.taken <= |l.sent|
  {
    Side(l.client.pc, l.client.pcm, FramesOf(l.sent[l.taken..] + Held(l.writer)), l.commands,
         l.reader.Activating?, l.id)
  }

  ghost predicate CurrentFine(w: World) {
    w.cur.client.Player? ==> Lockstep(w.cur) && OnTrack(Watch(SideOf(w.cur), w.srv))
  }

  ghost predicate ArchivedFine(l: Link) {
    l.client.Player? ==> Lockstep(l) && OnTrack(WatchPast(SideOf(l), l.ledger))
  }

  ghost predicate Fine(w: World) {
    CurrentFine(w) && forall i :: 0 <= i < |w.past| ==> ArchivedFine(w.past[i])
  }

  /** The link as the bridge's reader leaves it. */
  lemma LockstepTake(l: Link)
    requires Lockstep(l)
    ensures var read := ReadCommand(l.toServer);
            read.CommandGot? ==> l.commands != [] && read.command == l.commands[0]
                                 && read.rest == EncodeCommands(l.commands[1..])
  {
    if l.commands != [] {
      ReadCommandExact(l.commands[0], EncodeCommands(l.commands[1..]));
    }
  }

  lemma FineTakeCommand(w: World, at: int)
    requires Sound(w) && CurrentFine(w)
    ensures CurrentFine(DoTakeCommand(w, at))
  {
    var read := ReadCommand(w.cur.toServer);
    if w.cur.client.Player? && w.cur.reader.Reading? && read.CommandGot? {
      LockstepTake(w.cur);
      ObeyOnTrack(SideOf(w.cur), w.srv, at);
      var v := DoTakeCommand(w, at);
      assert SideOf(v.cur) == Taken(SideOf(w.cur));
    }
  }

  lemma FineActivation(w: World, at: int, code: bytes, message: bytes)
    requires CurrentFine(w)
    ensures CurrentFine(DoActivated(w, at))
    ensures CurrentFine(DoActivationFailed(w, at, code, message))
  {
    if w.cur.client.Player? && w.cur.reader.Activating? {
      BeginOnTrack(SideOf(w.cur), w.srv, at);
      BeginFailedOnTrack(SideOf(w.cur), w.srv, at, code, message);
      assert SideOf(w.cur.(reader := Reading)) == SideOf(w.cur).(activating := false);
    }
  }

  lemma FineReaderEnds(w: World)
    requires CurrentFine(w)
    ensures CurrentFine(DoReaderEnds(w))
  {
    if w.cur.client.Player? && w.cur.reader.Reading? {
      DisconnectOnTrack(SideOf(w.cur), w.srv, w.cur.id);
      assert SideOf(w.cur.(reader := ReaderDone)) == SideOf(w.cur);
    }
  }

  /** A frame moving from the queue to the writer is still on its way to the client. */
  lemma FinePop(w: World)
    requires Sound(w) && CurrentFine(w)
    ensures CurrentFine(DoPopFrame(w))
  {
    hide EncodeFrame, EncodeCommand, OnTrack, Consistent, Lockstep;
    var v := DoPopFrame(w);
    if w.cur.client.Player? && v != w {
      PopKeepsLockstep(w.cur, v.cur.writer);
      PopKeepsWatch(w.cur, w.srv);
    }
  }

  lemma PopKeepsLockstep(l: Link, writer: Writer)
    requires Lockstep(l) && l.writer.Waiting?
    ensures l.taken <= |l.sent|
    ensures !writer.WriterDone? ==> Lockstep(l.(writer := writer))
  {
    hide EncodeFrame, EncodeCommand;
  }

  lemma PopKeepsWatch(l: Link, s: Server)
    requires l.client.Player? && l.taken <= |l.sent| && l.writer.Waiting?
    requires s.outbound != [] && Open(s, l.id)
    ensures Watch(SideOf(l.(writer := Holding(s.outbound[0]))), s.(outbound := s.outbound[1..])) ==
            Watch(SideOf(l), s)
  {
    hide EncodeFrame;
    var written, e := l.sent[l.taken..], s.outbound[0];
    assert s.outbound == [e] + s.outbound[1..];
    FramesOfPop(written, e, s.outbound[1..]);
  }

  lemma FramesOfPop(written: seq<Entry>, e: Entry, rest: seq<Entry>)
    ensures FramesOf(written + [e]) + FramesOf(rest) == FramesOf(written + []) + FramesOf([e] + rest)
  {
  }

  lemma LockstepWrites(l: Link)
    requires Lockstep(l) && l.writer.Holding?
    ensures var e := l.writer.entry;
            var m := l.(writer := Waiting, sent := l.sent + [e], toClient := l.toClient + EncodeFrame(e.frame));
            && Lockstep(m)
            && m.sent[m.taken..] + [] == l.sent[l.taken..] + [e]
  {
    hide EncodeFrame, EncodeCommand;
    var e, written := l.writer.entry, l.sent[l.taken..];
    assert (l.sent + [e])[l.taken..] == written + [e];
    FramesOfWrite(written, e);
    assert TornBytes(l.torn) == [];
  }

  lemma FineWrite(w: World)
    requires CurrentFine(w)
    ensures CurrentFine(DoWriteFrame(w))
  {
    if w.cur.client.Player? && w.cur.writer.Holding? {
      LockstepWrites(w.cur);
      assert SideOf(DoWriteFrame(w).cur) == SideOf(w.cur);
    }
  }

  lemma FineWriterEnds(w: World)
    requires CurrentFine(w)
    ensures CurrentFine(DoWriterEnds(w))
  {
    if w.cur.client.Player? {
      assert SideOf(DoWriterEnds(w).cur) == SideOf(w.cur);
    }
  }

  lemma FramesOfWrite(written: seq<Entry>, e: Entry)
    ensures EncodeFrames(FramesOf(written + [e])) == EncodeFrames(FramesOf(written)) + EncodeFrame(e.frame)
  {
    assert FramesOf(written + [e]) == FramesOf(written) + [e.frame];
    EncodeFramesAppend(FramesOf(written), [e.frame]);
    assert EncodeFrames([e.frame]) == EncodeFrame(e.frame) + EncodeFrames([]);
  }

  lemma LockstepTears(l: Link, cut: nat)
    requires Lockstep(l) && l.writer.Holding? && cut < |EncodeFrame(l.writer.entry.frame)|
    ensures var f := l.writer.entry.frame;
            Lockstep(l.(writer := WriterDone, torn := Some(Torn(f, cut)),
                        toClient := l.toClient + EncodeFrame(f)[..cut]))
  {
    hide EncodeFrame, EncodeCommand;
    assert TornBytes(l.torn) == [];
  }

  /** The held frame is lost. */
  lemma HeldIsLost(written: seq<Entry>, e: Entry)
    ensures FramesOf(written + []) <= FramesOf(written + [e])
  {
  }

  lemma SideTears(c: Side, d: Side, s: Server)
    requires OnTrack(Watch(c, s)) && d == c.(written := d.written) && d.written <= c.written
    requires s.connected ==> s.consumer == Some(c.id)
    ensures OnTrack(Watch(d, Disconnect(s, c.id)))
  {
    TrackCloses(Watch(c, s), Watch(d, Disconnect(s, c.id)));
  }

  lemma FineWriteFails(w: World, cut: nat)
    requires Sound(w) && CurrentFine(w)
    ensures CurrentFine(DoWriteFails(w, cut))
  {
    if w.cur.client.Player? && w.cur.writer.Holding? && cut < |EncodeFrame(w.cur.writer.entry.frame)| {
      LockstepTears(w.cur, cut);
      HeldIsLost(w.cur.sent[w.cur.taken..], w.cur.writer.entry);
      SideTears(SideOf(w.cur), SideOf(DoWriteFails(w, cut).cur), w.srv);
    }
  }

  lemma FineStop(w: World)
    requires CurrentFine(w)
    ensures CurrentFine(DoBridgeStops(w))
  {
    if w.cur.client.Player? {
      ShutdownOnTrack(SideOf(w.cur), w.srv);
    }
  }

  lemma FineEnvironment(w: World, op: Op)
    requires Sound(w) && CurrentFine(w) && IsEnvironment(op)
    ensures CurrentFine(w.(srv := Do(w.srv, op)))
  {
    if w.cur.client.Player? {
      EnvironmentOnTrack(SideOf(w.cur), w.srv, op);
    }
  }

  lemma PublishOnTrack(c: Side, s: Server, at: int, sp: Speaker)
    requires OnTrack(Watch(c, s))
    ensures OnTrack(Watch(c, PublishStart(s, at, sp)))
    ensures OnTrack(Watch(c, PublishStop(s, at, sp)))
  {
    var added := s.(speakers := s.speakers[SpeakerKey(sp) := sp]);
    var removed := s.(speakers := s.speakers - {SpeakerKey(sp)});
    assert Watch(c, added) == Watch(c, s) && Watch(c, removed) == Watch(c, s);
    HarmlessFrame(c, added, SpeakerStart(at, sp), FromPublisher);
    HarmlessFrame(c, removed, SpeakerStop(at, sp), FromPublisher);
  }

  lemma EnvironmentOnTrack(c: Side, s: Server, op: Op)
    requires Consistent(s) && OnTrack(Watch(c, s)) && IsEnvironment(op)
    ensures OnTrack(Watch(c, Do(s, op)))
  {
    if op.OpFill? {
      FillOnTrack(c, s, op.count, op.at);
    } else if op.OpSpeakerStart? || op.OpSpeakerStop? {
      PublishOnTrack(c, s, op.at, op.speaker);
    } else if op.OpAudio? {
      HarmlessFrame(c, s, AudioChunk(op.at, op.speaker, op.rate, op.channels, op.sampleCount, op.payload),
                    FromPublisher);
    } else {
      assert Watch(c, Do(s, op)) == Watch(c, s);
    }
  }

  lemma FineInstall(w: World, at: int, client: Client)
    requires Sound(w) && Fine(w) && Starting(client)
    requires !w.srv.connected && w.cur.reader.ReaderDone? && w.cur.writer.WriterDone? && w.srv.running
    ensures Fine(DoConnect(w, at, client))
  {
    var v := DoConnect(w, at, client);
    if w.cur.client.Player? {
      ArchiveOnTrack(SideOf(w.cur), w.srv);
      assert SideOf(w.cur.(ledger := w.srv.ledger)) == SideOf(w.cur);
    }
    if client.Player? {
      InstalledGreeting(w.srv, w.nextId, at);
      NewcomerOnTrack(v.cur, v.srv);
    }
  }

  lemma NewcomerOnTrack(l: Link, s: Server)
    requires l.client.Player? && Starting(l.client)
    requires l.toServer == [] && l.commands == [] && l.toClient == [] && l.sent == [] && l.taken == 0
    requires l.torn == None && l.reader == Reading && l.writer == Waiting
    requires Open(s, l.id) && IsGreeting(s.outbound)
    ensures Lockstep(l) && OnTrack(Watch(SideOf(l), s))
  {
    hide EncodeFrame, EncodeCommand;
    NewcomerPipe(l);
    GreetingStartsNothing(s.outbound);
    assert [] + FramesOf(s.outbound) == FramesOf(s.outbound);
  }

  lemma NewcomerPipe(l: Link)
    requires l.sent == [] && l.taken == 0 && l.writer == Waiting
    ensures FramesOf(l.sent[l.taken..]) == [] && FramesOf(l.sent[l.taken..] + Held(l.writer)) == []
  {
  }

  lemma GreetingStartsNothing(g: seq<Entry>)
    requires IsGreeting(g)
    ensures NoStarted(FramesOf(g)) && NoCleared(FramesOf(g))
  {
  }

  lemma FineRefuse(id: nat, at: int, client: Client)
    requires Starting(client)
    ensures ArchivedFine(Refused(id, at, client))
  {
    var l := Refused(id, at, client);
    assert l.sent[0..] == l.sent;
    assert FramesOf(l.sent) == [l.sent[0].frame];
    assert EncodeFrames(FramesOf(l.sent)) == EncodeFrame(l.sent[0].frame) + EncodeFrames([]);
  }

  lemma FineConnect(w: World, at: int, client: Client)
    requires Sound(w) && Fine(w)
    ensures Fine(DoConnect(w, at, client))
  {
    if w.srv.running && Starting(client) {
      if w.srv.connected {
        FineRefuse(w.nextId, at, client);
      } else if w.cur.reader.ReaderDone? && w.cur.writer.WriterDone? {
        FineInstall(w, at, client);
      }
    }
  }

  // ---------- Client moves ----------

  lemma LockstepSends(l: Link)
    requires l.client.Player? && Lockstep(l)
    ensures Lockstep(LinkSends(l))
  {
    var send := NextSend(l.client.pc, l.client.pcm);
    if send.Send? {
      EncodeCommandsAppend(l.commands, [send.command]);
      assert EncodeCommands([send.command]) == EncodeCommand(send.command) + EncodeCommands([]);
    }
  }

  /** What a link looks like after its client heard a frame. */
  predicate Heard(l: Link, m: Link)
    requires l.client.Player? && l.taken < |l.sent|
  {
    && m.taken == l.taken + 1 && SameServerSide(l, m) && m.commands == l.commands
    && m.client == l.client.(pc := Hear(l.client.pc, l.sent[l.taken].frame))
  }

  /** A client that reads gets the oldest frame it has not read, or nothing. */
  lemma LockstepReads(l: Link)
    requires l.client.Player? && Lockstep(l) && Listening(l.client.pc)
    ensures var m := LinkReads(l);
            if l.taken == |l.sent| then m == l else Lockstep(m) && Heard(l, m)
  {
    if l.taken == |l.sent| {
      NothingToRead(l);
    } else {
      ReadsNext(l);
    }
  }

  lemma NothingToRead(l: Link)
    requires l.client.Player? && Lockstep(l) && l.taken == |l.sent|
    ensures LinkReads(l) == l
  {
    hide EncodeFrame, EncodeCommand, ReadFrame;
    assert l.sent[l.taken..] == [];
    assert l.toClient == TornBytes(l.torn);
    if l.torn.Some? {
      CutFrameIsIncomplete(l.torn.value.frame, l.torn.value.cut);
    } else {
      assert ReadFrame([]) == FrameIncomplete by { NothingReadsAsFrame(); }
    }
  }

  lemma NothingReadsAsFrame()
    ensures ReadFrame([]) == FrameIncomplete
  {
  }

  lemma ReadsNext(l: Link)
    requires l.client.Player? && Lockstep(l) && Listening(l.client.pc) && l.taken < |l.sent|
    ensures Lockstep(LinkReads(l)) && Heard(l, LinkReads(l))
  {
    hide EncodeFrame, EncodeCommand, ReadFrame, Hear, AfterRead;
    var e, later := l.sent[l.taken], l.sent[l.taken + 1..];
    var rest := EncodeFrames(FramesOf(later)) + TornBytes(l.torn);
    assert l.sent[l.taken..] == [e] + later;
    FramesOfRead(e, later);
    AppendLater(EncodeFrame(e.frame), EncodeFrames(FramesOf(later)), TornBytes(l.torn));
    ReadFrameExact(e.frame, rest);
    ReadIsHear(l.client.pc, e.frame, rest);
  }

  lemma FramesOfRead(e: Entry, rest: seq<Entry>)
    ensures EncodeFrames(FramesOf([e] + rest)) == EncodeFrame(e.frame) + EncodeFrames(FramesOf(rest))
  {
    assert FramesOf([e] + rest) == [e.frame] + FramesOf(rest);
  }

  /** What reading does to the list of frames still to be heard. */
  lemma PipeAdvances(l: Link, m: Link)
    requires l.taken < |l.sent| && m.sent == l.sent && m.taken == l.taken + 1 && m.writer == l.writer
    ensures var before := FramesOf(l.sent[l.taken..] + Held(l.writer));
            var after := FramesOf(m.sent[m.taken..] + Held(m.writer));
            before != [] && before[0] == l.sent[l.taken].frame && after == before[1..]
  {
    var held := Held(l.writer);
    assert l.sent[l.taken..] + held == [l.sent[l.taken]] + (l.sent[l.taken + 1..] + held);
  }

  /** Sending and hearing on a link whose pipe is its own frames and then `later`. */
  lemma LinkSendsOnTrack(l: Link, t: Track, u: Track)
    requires l.client.Player? && Lockstep(l) && OnTrack(t)
    requires t.pc == l.client.pc && t.pcm == l.client.pcm && t.commands == l.commands
    requires u == t.(pc := LinkSends(l).client.pc, commands := LinkSends(l).commands)
    ensures OnTrack(u)
  {
    if NextSend(l.client.pc, l.client.pcm).Send? {
      SendOnTrack(t, u);
    } else {
      assert u == t;
    }
  }

  lemma LinkHearsOnTrack(l: Link, later: seq<Frame>, t: Track, u: Track)
    requires l.client.Player? && Lockstep(l) && l.taken < |l.sent| && Listening(l.client.pc) && OnTrack(t)
    requires t.pc == l.client.pc && t.pipe == FramesOf(l.sent[l.taken..] + Held(l.writer)) + later
    requires u == t.(pc := Hear(t.pc, l.sent[l.taken].frame),
                     pipe := FramesOf(l.sent[l.taken + 1..] + Held(l.writer)) + later)
    ensures OnTrack(u)
  {
    hide OnTrack, Hear, EncodeFrame, EncodeCommand;
    PipeAdvances(l, l.(taken := l.taken + 1));
    var before := FramesOf(l.sent[l.taken..] + Held(l.writer));
    assert (before + later)[1..] == before[1..] + later;
    HearOnTrack(t, u);
  }

  lemma FineCurrentSends(w: World)
    requires CurrentFine(w)
    ensures CurrentFine(w.(cur := LinkSends(w.cur)))
  {
    if w.cur.client.Player? {
      LockstepSends(w.cur);
      LinkSendsOnTrack(w.cur, Watch(SideOf(w.cur), w.srv), Watch(SideOf(LinkSends(w.cur)), w.srv));
    }
  }

  lemma HeardWatch(l: Link, m: Link, s: Server)
    requires l.client.Player? && Lockstep(l) && l.taken < |l.sent| && Listening(l.client.pc)
    requires Heard(l, m) && OnTrack(Watch(SideOf(l), s))
    ensures OnTrack(Watch(SideOf(m), s))
  {
    hide OnTrack, Hear, EncodeFrame, EncodeCommand;
    var later := if Open(s, l.id) then FramesOf(s.outbound) else [];
    var t, u := Watch(SideOf(l), s), Watch(SideOf(m), s);
    assert t.pipe == SideOf(l).written + later;
    assert u.pipe == SideOf(m).written + later;
    LinkHearsOnTrack(l, later, t, u);
  }

  lemma HeardWatchPast(l: Link, m: Link)
    requires l.client.Player? && Lockstep(l) && l.taken < |l.sent| && Listening(l.client.pc)
    requires Heard(l, m) && OnTrack(WatchPast(SideOf(l), l.ledger))
    ensures OnTrack(WatchPast(SideOf(m), m.ledger))
  {
    hide OnTrack, Hear, EncodeFrame, EncodeCommand;
    var t, u := WatchPast(SideOf(l), l.ledger), WatchPast(SideOf(m), m.ledger);
    assert t.pipe == SideOf(l).written + [] && u.pipe == SideOf(m).written + [];
    LinkHearsOnTrack(l, [], t, u);
  }

  lemma FineCurrentReads(w: World)
    requires CurrentFine(w)
    ensures CurrentFine(w.(cur := LinkReads(w.cur)))
  {
    hide OnTrack, Hear, EncodeFrame, EncodeCommand, ReadFrame, Watch;
    if w.cur.client.Player? && Listening(w.cur.client.pc) {
      LockstepReads(w.cur);
      if w.cur.taken < |w.cur.sent| {
        HeardWatch(w.cur, LinkReads(w.cur), w.srv);
      }
    }
  }

  lemma FineArchivedSends(l: Link)
    requires ArchivedFine(l)
    ensures ArchivedFine(LinkSends(l))
  {
    if l.client.Player? {
      LockstepSends(l);
      LinkSendsOnTrack(l, WatchPast(SideOf(l), l.ledger), WatchPast(SideOf(LinkSends(l)), l.ledger));
    }
  }

  lemma FineArchivedReads(l: Link)
    requires ArchivedFine(l)
    ensures ArchivedFine(LinkReads(l))
  {
    hide OnTrack, Hear, EncodeFrame, EncodeCommand, ReadFrame, WatchPast;
    if l.client.Player? && Listening(l.client.pc) {
      LockstepReads(l);
      if l.taken < |l.sent| {
        HeardWatchPast(l, LinkReads(l));
      }
    }
  }

  /** The moves that neither send a command nor read a frame. */
  predicate Idle(l: Link, m: Link) {
    m == l || m.client.Stranger? ||
    (l.client.Player? && m == l.(client := l.client.(pc := Failed)))
  }

  lemma OtherMovesAreIdle(l: Link, step: Step)
    requires IsClientStep(step) && !step.ClientSends? && !step.ClientReads?
    ensures Idle(l, MovedLink(l, step))
  {
  }

  lemma IdleStaysFine(l: Link, m: Link, s: Server)
    requires l.client.Player? && m.client.Player? && Idle(l, m) && Lockstep(l)
    ensures Lockstep(m)
    ensures OnTrack(Watch(SideOf(l), s)) ==> OnTrack(Watch(SideOf(m), s))
    ensures OnTrack(WatchPast(SideOf(l), l.ledger)) ==> OnTrack(WatchPast(SideOf(m), m.ledger))
  {
    hide EncodeFrame, EncodeCommand, EncodeFrames, EncodeCommands, OnTrack;
    if m != l {
      FailedIsOnTrack(Watch(SideOf(m), s));
      FailedIsOnTrack(WatchPast(SideOf(m), m.ledger));
    }
  }

  lemma FailedIsOnTrack(t: Track)
    requires t.pc.Failed?
    ensures OnTrack(t)
  {
  }

  lemma FineCurrentMove(w: World, step: Step)
    requires CurrentFine(w) && IsClientStep(step)
    ensures CurrentFine(w.(cur := MovedLink(w.cur, step)))
  {
    hide OnTrack, Lockstep, EncodeFrame, EncodeCommand, ReadFrame, Watch;
    if step.ClientSends? {
      FineCurrentSends(w);
    } else if step.ClientReads? {
      FineCurrentReads(w);
    } else {
      var m := MovedLink(w.cur, step);
      OtherMovesAreIdle(w.cur, step);
      if m.client.Player? && w.cur.client.Player? {
        IdleStaysFine(w.cur, m, w.srv);
      }
    }
  }

  lemma FineArchivedMove(l: Link, step: Step)
    requires ArchivedFine(l) && IsClientStep(step)
    ensures ArchivedFine(MovedLink(l, step))
  {
    hide OnTrack, Lockstep, EncodeFrame, EncodeCommand, ReadFrame, WatchPast;
    if step.ClientSends? {
      FineArchivedSends(l);
    } else if step.ClientReads? {
      FineArchivedReads(l);
    } else {
      var m := MovedLink(l, step);
      OtherMovesAreIdle(l, step);
      if m.client.Player? && l.client.Player? {
        IdleStaysFine(l, m, INITIAL);
      }
    }
  }

  lemma FineClientStep(w: World, step: Step)
    requires Fine(w) && IsClientStep(step)
    ensures Fine(Next(w, step))
  {
    ClientStepIsMove(w, step);
    match step.link
    case Current => FineCurrentMove(w, step);
    case Past(i) => if i < |w.past| { FineArchivedMove(w.past[i], step); }
  }

  lemma FineServerStep(w: World, step: Step)
    requires Sound(w) && Fine(w) && !IsClientStep(step)
    ensures Fine(Next(w, step))
  {
    match step
    case Connect(at, client) => FineConnect(w, at, client);
    case TakeCommand(at) => FineTakeCommand(w, at);
    case Activated(at) => FineActivation(w, at, ERROR, ERROR);
    case ActivationFailed(at, code, message) => FineActivation(w, at, code, message);
    case ReaderEnds => FineReaderEnds(w);
    case PopFrame => FinePop(w);
    case WriteFrame => FineWrite(w);
    case WriteFails(cut) => FineWriteFails(w, cut);
    case WriterEnds => FineWriterEnds(w);
    case Environment(op) => if IsEnvironment(op) { FineEnvironment(w, op); }
    case BridgeStops => FineStop(w);
  }

  lemma FineStep(w: World, step: Step)
    requires Sound(w) && Fine(w)
    ensures Fine(Next(w, step))
  {
    if IsClientStep(step) {
      FineClientStep(w, step);
    } else {
      FineServerStep(w, step);
    }
  }

  // ---------- Every run ----------

  lemma BootIsGood()
    ensures Sound(BOOT) && Streams(BOOT) && Fine(BOOT)
  {
    assert FullStream(BOOT) == [];
  }

  /** In every state that any schedule can reach, the three invariants hold. */
  lemma {:induction false} AlwaysGood(steps: seq<Step>)
    ensures Sound(Run(steps)) && Streams(Run(steps)) && Fine(Run(steps))
  {
    if steps == [] {
      BootIsGood();
    } else {
      var n := |steps| - 1;
      AlwaysGood(steps[..n]);
      SoundStep(Run(steps[..n]), steps[n]);
      StreamsStep(Run(steps[..n]), steps[n]);
      FineStep(Run(steps[..n]), steps[n]);
    }
  }
}
