/** The bridge as an object: each method is one block that media_bridge.cpp runs under its
    mutex, and is proved against the block's function on the state value. */
module MediaBridge {
  import opened Bytes
  import opened Wire
  import opened MediaFrames
  import opened MediaState

  /** Every value written once per channel. */
  function Interleave(values: seq<Sample>, channels: nat): (r: seq<Sample>)
    ensures |r| == |values| * channels
  {
    if values == [] then []
    else Interleave(values[..|values| - 1], channels) + Copies(values[|values| - 1], channels)
  }

  function Copies(value: Sample, n: nat): (r: seq<Sample>)
    ensures |r| == n
    ensures forall i :: 0 <= i < n ==> r[i] == value
  {
    if n == 0 then [] else Copies(value, n - 1) + [value]
  }

  /** The sample of frame f sits at f*channels+c for every channel c. */
  lemma {:induction false} InterleaveAt(values: seq<Sample>, channels: nat, f: nat, c: nat)
    requires f < |values| && c < channels
    ensures f * channels + c < |values| * channels
    ensures Interleave(values, channels)[f * channels + c] == values[f]
  {
    var last := |values| - 1;
    assert |values| * channels == last * channels + channels;
    if f < last {
      InterleaveAt(values[..last], channels, f, c);
    }
  }

  class MediaBridgeState {
    var running: bool
    var path: bytes
    var consumer: Option<nat>
    var connected: bool
    var active: bool
    var stopRequested: bool
    var samples: seq<Sample>
    var outbound: seq<Entry>
    var speakers: map<bytes, Speaker>
    var droppedAudio: nat
    var droppedPlayback: nat
    var lastError: bytes
    ghost var ledger: Ledger
    ghost var marks: seq<Mark>

    ghost function View(): Server
      reads this
    {
      Server(running, path, consumer, connected, active, stopRequested, samples, outbound, speakers,
             droppedAudio, droppedPlayback, lastError, ledger, marks)
    }

    constructor ()
      ensures View() == INITIAL && Consistent(View())
    {
      running, path, consumer, connected := false, "", None, false;
      active, stopRequested, samples, outbound := false, false, [], [];
      speakers, droppedAudio, droppedPlayback, lastError := map[], 0, 0, "";
      ledger, marks := Ledger([], [], []), [];
    }

    /** enqueue_frame_locked */
    method Push(frame: Frame, origin: Origin)
      modifies this
      ensures View() == Enqueue(old(View()), frame, origin)
    {
      if Droppable(frame) && |outbound| >= MAX_OUTBOUND {
        droppedAudio := droppedAudio + 1;
        return;
      }
      outbound := outbound + [Entry(frame, origin)];
    }

    method Refused(link: nat, at: int, code: bytes, message: bytes)
      modifies this
      ensures View() == Refuse(old(View()), link, at, code, message)
    {
      lastError := message;
      Push(ErrorFrame(at, code, message), FromReader(link));
    }

    method PublishSpeakerStart(at: int, speaker: Speaker)
      modifies this
      ensures View() == PublishStart(old(View()), at, speaker)
    {
      speakers := speakers[SpeakerKey(speaker) := speaker];
      if connected {
        Push(SpeakerStart(at, speaker), FromPublisher);
      }
    }

    method PublishSpeakerStop(at: int, speaker: Speaker)
      modifies this
      ensures View() == PublishStop(old(View()), at, speaker)
    {
      speakers := speakers - {SpeakerKey(speaker)};
      if connected {
        Push(SpeakerStop(at, speaker), FromPublisher);
      }
    }

    /** The copy of the host's samples, two bytes each. */
    static method CopySamples(samples: seq<Sample>) returns (payload: bytes)
      ensures payload == Pcm(samples)
    {
      payload := [];
      for i := 0 to |samples|
        invariant payload == Pcm(samples[..i])
      {
        PcmGrows(samples[..i], samples[i]);
        assert samples[..i + 1] == samples[..i] + [samples[i]];
        payload := payload + SampleBytes(samples[i]);
      }
      assert samples[..|samples|] == samples;
    }

    static lemma {:induction false} PcmGrows(xs: seq<Sample>, x: Sample)
      ensures Pcm(xs + [x]) == Pcm(xs) + SampleBytes(x)
    {
      hide SampleBytes;
      if xs == [] {
        assert xs + [x] == [x] && [x][1..] == [];
        assert SampleBytes(x) + [] == [] + SampleBytes(x);
      } else {
        assert (xs + [x])[1..] == xs[1..] + [x];
        PcmGrows(xs[1..], x);
      }
    }

    /** publish_audio_chunk: nothing happens without a consumer or without samples. */
    method PublishAudioChunk(at: int, speaker: Speaker, rate: int, channels: int, samples: seq<Sample>, count: int)
      requires count > 0 && channels > 0 ==> |samples| == count * channels
      requires 2 * |samples| < U64_LIMIT
      modifies this
      ensures View() ==
              if count <= 0 || channels <= 0 then old(View())
              else PublishAudio(old(View()), AudioChunk(at, speaker, rate, channels, count, Pcm(samples)))
    {
      if !connected || count <= 0 || channels <= 0 {
        return;
      }
      var payload := CopySamples(samples);
      Push(AudioChunk(at, speaker, rate, channels, count, payload), FromPublisher);
    }

    /** fill_playback_samples: one queued sample per frame, silence once the queue is empty,
        copied to every channel; then a requested stop is finished if the queue is empty. */
    method FillPlaybackSamples(at: int, rate: int, channels: int, out: array<Sample>, count: int) returns (filled: bool)
      requires count > 0 && channels > 0 ==> out.Length >= count * channels
      modifies this, out
      ensures filled <==> rate == SAMPLE_RATE && channels > 0 && count > 0 && old(active)
      ensures View() == if filled then Fill(old(View()), count, at) else old(View())
      ensures filled ==> out[..count * channels] == Interleave(FillValues(old(samples), count), channels)
      ensures !filled ==> out[..] == old(out[..])
    {
      if rate != SAMPLE_RATE || channels <= 0 || count <= 0 {
        return false;
      }
      if !active {
        return false;
      }
      hide Interleave, FillValues;
      ghost var queue := samples;
      PopFrames(out, count, channels);
      ledger := ledger.(played := ledger.played + queue[..Min(count, |queue|)]);
      if stopRequested && samples == [] {
        active := false;
        stopRequested := false;
        if connected {
          marks := marks + [MarkDrained];
          Push(PlaybackStopped(at, DRAINED), FromAudio);
        }
      }
      return true;
    }

    method PopFrames(out: array<Sample>, count: nat, channels: nat)
      requires out.Length >= count * channels
      modifies this`samples, out
      ensures samples == old(samples)[Min(count, |old(samples)|)..]
      ensures out[..count * channels] == Interleave(FillValues(old(samples), count), channels)
    {
      ghost var queue := samples;
      var base := 0;
      var frame := 0;
      assert out[..0] == Interleave(FillValues(queue, 0), channels);
      hide Interleave, FillValues;
      while frame < count
        invariant 0 <= frame <= count
        invariant base == frame * channels
        invariant out[..base] == Interleave(FillValues(queue, frame), channels)
        invariant samples == queue[Min(frame, |queue|)..]
      {
        FrameFits(frame, count, channels);
        FillValuesGrow(queue, frame);
        var value: Sample := if samples == [] then 0 else samples[0];
        if samples != [] {
          assert queue[frame..][1..] == queue[frame + 1..];
          samples := samples[1..];
        }
        WriteFrame(out, base, channels, value);
        InterleaveGrow(FillValues(queue, frame), value, channels);
        base := base + channels;
        frame := frame + 1;
      }
    }

    /** The same value in every channel of one frame. */
    static method WriteFrame(out: array<Sample>, base: nat, channels: nat, value: Sample)
      requires base + channels <= out.Length
      modifies out
      ensures out[..base + channels] == old(out[..base]) + Copies(value, channels)
    {
      ghost var written := out[..base];
      var channel := 0;
      while channel < channels
        invariant 0 <= channel <= channels
        invariant out[..base + channel] == written + Copies(value, channel)
      {
        out[base + channel] := value;
        assert out[..base + channel + 1] == out[..base + channel] + [value];
        channel := channel + 1;
      }
    }

    static lemma InterleaveGrow(values: seq<Sample>, value: Sample, channels: nat)
      ensures Interleave(values + [value], channels) == Interleave(values, channels) + Copies(value, channels)
    {
      assert (values + [value])[..|values|] == values;
    }

    static lemma FrameFits(frame: nat, count: nat, channels: nat)
      requires frame < count
      ensures frame * channels + channels == (frame + 1) * channels <= count * channels
    {
      var left := count - (frame + 1);
      assert count * channels == (frame + 1) * channels + left * channels;
    }

    static lemma FillValuesGrow(queue: seq<Sample>, frame: nat)
      ensures FillValues(queue, frame + 1) ==
              FillValues(queue, frame) + [if frame < |queue| then queue[frame] else 0]
    {
      if frame < |queue| {
        assert queue[..frame + 1] == queue[..frame] + [queue[frame]];
      } else {
        assert queue[..|queue|] == queue;
      }
    }

    /** accept_loop: a second consumer is turned away; otherwise the newcomer is greeted with
        hello, status and the active speakers in key order. */
    method Accept(link: nat, at: int) returns (installed: bool)
      modifies this
      ensures installed == !old(connected)
      ensures View() == Install(old(View()), link, at)
    {
      if connected {
        return false;
      }
      consumer := Some(link);
      connected := true;
      outbound := [];
      Greet(link, at);
      return true;
    }

    method Greet(link: nat, at: int)
      requires outbound == []
      modifies this
      ensures View() == old(View()).(outbound := Greeting(old(View()), link, at))
    {
      hide SortedKeys, SpeakerEntries;
      Push(Hello(at, path), FromAcceptor(link));
      Push(Status(at, connected, active, |samples|, |speakers|, droppedAudio, droppedPlayback, lastError),
           FromAcceptor(link));
      AnnounceSpeakers(link, at);
    }

    method AnnounceSpeakers(link: nat, at: int)
      modifies this`outbound
      ensures outbound == old(outbound) + SpeakerEntries(SortedKeys(speakers.Keys), speakers, link, at)
    {
      var keys := KeysInOrder(speakers.Keys);
      var entries := Announcements(keys, speakers, link, at);
      outbound := outbound + entries;
    }

    static method Announcements(keys: seq<bytes>, known: map<bytes, Speaker>, link: nat, at: int)
      returns (entries: seq<Entry>)
      requires forall k :: k in keys ==> k in known
      ensures entries == SpeakerEntries(keys, known, link, at)
    {
      entries := [];
      for i := 0 to |keys|
        invariant entries == SpeakerEntries(keys[..i], known, link, at)
      {
        assert keys[..i + 1] == keys[..i] + [keys[i]];
        SpeakerEntriesAppend(keys[..i], keys[i], known, link, at);
        entries := entries + [Entry(SpeakerStart(at, known[keys[i]]), FromAcceptor(link))];
      }
      assert keys[..|keys|] == keys;
    }

    /** The locked block of playback.start, once the host has been switched over. */
    method Begin(link: nat, at: int)
      modifies this
      ensures View() == BeginPlayback(old(View()), link, at)
    {
      active := true;
      stopRequested := false;
      samples := [];
      ledger := Ledger([], [], []);
      marks := marks + [MarkStarted];
      Push(PlaybackStarted(at), FromReader(link));
    }

    /** The locked block of playback.chunk, after its payload was read. */
    method TakeChunk(link: nat, at: int, frames: u64, payload: buffer)
      modifies this
      ensures View() == AcceptChunk(old(View()), link, at, frames, payload)
    {
      if |payload| != (frames * 2) % U64_LIMIT {
        Refused(link, at, INVALID_CHUNK, SIZE_MISMATCH);
        return;
      }
      if !active {
        Refused(link, at, PLAYBACK_INACTIVE, INACTIVE);
        return;
      }
      var count := |payload| / 2;
      if |samples| + count > MAX_QUEUED {
        droppedPlayback := droppedPlayback + 1;
        Refused(link, at, QUEUE_FULL, QUEUE_FULL_MESSAGE);
        return;
      }
      ChunkAcceptedOrRefused(View(), link, at, frames, payload);
      AppendSamples(payload);
      ledger := ledger.(accepted := ledger.accepted + Samples(payload));
    }

    method AppendSamples(payload: buffer)
      requires |payload| % 2 == 0
      modifies this`samples
      ensures samples == old(samples) + Samples(payload)
    {
      ghost var before := samples;
      var i := 0;
      while i < |payload| / 2
        invariant 0 <= i <= |payload| / 2
        invariant samples == before + Samples(payload[..2 * i])
      {
        SamplesGrow(payload, i);
        samples := samples + [SampleOf(payload[2 * i], payload[2 * i + 1])];
        i := i + 1;
      }
      assert payload[..2 * i] == payload;
    }

    static lemma SamplesGrow(payload: bytes, i: nat)
      requires 2 * i + 2 <= |payload|
      ensures Samples(payload[..2 * (i + 1)]) ==
              Samples(payload[..2 * i]) + [SampleOf(payload[2 * i], payload[2 * i + 1])]
    {
      var pair := payload[2 * i..2 * i + 2];
      assert payload[..2 * (i + 1)] == payload[..2 * i] + pair;
      SamplesAppend(payload[..2 * i], pair);
      assert Samples(pair) == [SampleOf(pair[0], pair[1])];
    }

    method StopCommand(link: nat, at: int)
      modifies this
      ensures View() == StopPlayback(old(View()), link, at)
    {
      if !active {
        Push(PlaybackStopped(at, NOT_PLAYING), FromReader(link));
        return;
      }
      stopRequested := true;
      if samples == [] {
        active := false;
        stopRequested := false;
        marks := marks + [MarkDrained];
        Push(PlaybackStopped(at, DRAINED), FromReader(link));
      }
    }

    method DiscardQueue()
      modifies this
      ensures View() == Wipe(old(View()))
    {
      ledger := ledger.(discarded := ledger.discarded + samples);
      samples := [];
      active := false;
      stopRequested := false;
    }

    /** One round of reader_loop on a decoded command. */
    method Execute(link: nat, at: int, command: Command)
      modifies this
      ensures View() == Obey(old(View()), link, at, command)
    {
      match command
      case Malformed => Refused(link, at, INVALID_REQUEST, BAD_REQUEST_MESSAGE);
      case StatusRequest =>
        Push(Status(at, connected, active, |samples|, |speakers|, droppedAudio, droppedPlayback, lastError),
             FromReader(link));
      case Start =>
      case StartRejected(code, message) => Refused(link, at, code, message);
      case Chunk(frames, payload) => TakeChunk(link, at, frames, payload);
      case ChunkRejected(message) => Refused(link, at, INVALID_REQUEST, message);
      case Stop => StopCommand(link, at);
      case Clear =>
        DiscardQueue();
        Push(PlaybackCleared(at), FromReader(link));
      case Unknown => Refused(link, at, UNKNOWN_REQUEST, UNKNOWN_REQUEST_MESSAGE);
    }

    /** writer_loop, locked part: the frame at the head of the queue, if it may be written. */
    method TakeFrame() returns (entry: Option<Entry>)
      modifies this
      ensures if old(connected) && old(outbound) != [] then
                && entry == Some(old(outbound)[0])
                && View() == old(View()).(outbound := old(outbound)[1..])
              else entry == None && View() == old(View())
    {
      if !connected || outbound == [] {
        return None;
      }
      entry := Some(outbound[0]);
      outbound := outbound[1..];
    }

    /** handle_client_disconnect: stale connections change nothing. */
    method HandleDisconnect(link: nat)
      modifies this
      ensures View() == Disconnect(old(View()), link)
    {
      if consumer != Some(link) {
        return;
      }
      connected := false;
      consumer := None;
      outbound := [];
      DiscardQueue();
    }

    method Finish()
      modifies this
      ensures View() == Shutdown(old(View()))
    {
      running := false;
      connected := false;
      consumer := None;
      outbound := [];
      speakers := map[];
      path := "";
      DiscardQueue();
    }

    /** read_line, split_fields, and for a chunk read_exact. */
    static method ReceiveCommand(input: bytes) returns (read: CommandRead)
      ensures read == ReadCommand(input)
    {
      hide ReadFields;
      var line := ReadLineLoop(input);
      if line.NoLine? {
        return CommandIncomplete;
      }
      var fields := SplitText(line.text, '\t');
      read := ReadFields(fields, line.rest);
    }

    /** One round of reader_loop: a start asks the host first, and a stop or clear that ends
        playback tells the host afterwards. */
    method ServeCommand(link: nat, at: int, command: Command, host: Host, round: nat)
      modifies this
      ensures View() == Serve(old(View()), link, at, command, host, round)
    {
      if command.Start? {
        var activated := host.activate(round);
        if activated.Err? {
          Refused(link, at, activated.error.code, activated.error.message);
          return;
        }
        Begin(link, at);
        return;
      }
      var ends := command.Clear? || (command.Stop? && active && samples == []);
      Execute(link, at, command);
      if ends {
        var released := host.release(round);
        if released.Err? {
          lastError := released.error.message;
        }
      }
    }

    /** reader_loop until the bytes run out: every command is taken from the bytes alone, so
        refusing one never shifts the next. */
    method ReadAndExecute(link: nat, at: int, input: bytes, host: Host) returns (done: seq<Command>, rest: bytes)
      modifies this
      ensures Commands(done, rest) == ReadCommands(input)
      ensures View() == ServeAll(old(View()), link, at, done, host)
    {
      hide Serve, ReadCommand;
      done := [];
      rest := input;
      while true
        invariant ReadCommands(input) == Commands(done + ReadCommands(rest).list, ReadCommands(rest).rest)
        invariant View() == ServeAll(old(View()), link, at, done, host)
        decreases |rest|
      {
        ReadCommandShrinks(rest);
        var read := ReceiveCommand(rest);
        if read.CommandIncomplete? {
          assert done + [] == done;
          break;
        }
        ghost var more := ReadCommands(read.rest).list;
        assert done + ([read.command] + more) == done + [read.command] + more;
        assert (done + [read.command])[..|done|] == done;
        ServeCommand(link, at, read.command, host, |done|);
        done := done + [read.command];
        rest := read.rest;
      }
    }
  }

  /** What the host's capture device answers to the reader's calls, by the number of the command
      that makes the call. A bridge without a host is one whose host always agrees. */
  datatype Host = Host(activate: nat -> Result<()>, release: nat -> Result<()>)

  function Serve(s: Server, link: nat, at: int, c: Command, host: Host, round: nat): Server {
    if c.Start? then
      match host.activate(round)
      case Err(e) => Refuse(s, link, at, e.code, e.message)
      case Ok(_) => BeginPlayback(s, link, at)
    else
      var t := Obey(s, link, at, c);
      var ends := c.Clear? || (c.Stop? && s.active && s.samples == []);
      if ends && host.release(round).Err? then t.(lastError := host.release(round).error.message) else t
  }

  function ServeAll(s: Server, link: nat, at: int, cs: seq<Command>, host: Host): Server {
    if cs == [] then s
    else Serve(ServeAll(s, link, at, cs[..|cs| - 1], host), link, at, cs[|cs| - 1], host, |cs| - 1)
  }

  /** Playback begins only if the host agrees; if it refuses, the consumer is told what the host
      said. The host's answer to the end of playback changes the last error and nothing else. */
  lemma ServeMeans(s: Server, link: nat, at: int, c: Command, host: Host, round: nat)
    ensures var t, ends := Serve(s, link, at, c, host, round), c.Clear? || (c.Stop? && s.active && s.samples == []);
            && (c.Start? && host.activate(round).Ok? ==>
                  t.active && t.samples == [] &&
                  t.outbound == s.outbound + [Entry(PlaybackStarted(at), FromReader(link))])
            && (c.Start? && host.activate(round).Err? ==>
                  t == s.(lastError := host.activate(round).error.message,
                          outbound := s.outbound + [Entry(ErrorFrame(at, host.activate(round).error.code,
                                                                     host.activate(round).error.message),
                                                          FromReader(link))]))
            && (!c.Start? && !(ends && host.release(round).Err?) ==> t == Obey(s, link, at, c))
            && (!c.Start? && ends && host.release(round).Err? ==>
                  t == Obey(s, link, at, c).(lastError := host.release(round).error.message))
  {
    hide Obey;
  }

  lemma ServeKeepsConsistent(s: Server, link: nat, at: int, c: Command, host: Host, round: nat)
    requires Consistent(s)
    ensures Consistent(Serve(s, link, at, c, host, round))
  {
    hide Consistent, Obey, BeginPlayback, Refuse;
    if c.Start? {
      match host.activate(round)
      case Err(e) => RefuseKeepsConsistent(s, link, at, e.code, e.message);
      case Ok(_) => BeginKeepsConsistent(s, link, at);
    } else {
      ObeyKeepsConsistent(s, link, at, c);
      if host.release(round).Err? {
        NoteKeepsConsistent(Obey(s, link, at, c), host.release(round).error.message);
      }
    }
  }

  lemma NoteKeepsConsistent(s: Server, message: bytes)
    requires Consistent(s)
    ensures Consistent(s.(lastError := message))
  {
  }

  /** Whatever the bytes and the host's answers are, the reader leaves the state consistent. */
  lemma {:induction false} ServingKeepsConsistent(s: Server, link: nat, at: int, cs: seq<Command>, host: Host)
    requires Consistent(s)
    ensures Consistent(ServeAll(s, link, at, cs, host))
  {
    hide Consistent, Serve;
    if cs != [] {
      var n := |cs| - 1;
      ServingKeepsConsistent(s, link, at, cs[..n], host);
      ServeKeepsConsistent(ServeAll(s, link, at, cs[..n], host), link, at, cs[n], host, n);
    }
  }
}
