/** What travels on the media socket: the frames the bridge writes (media_bridge.cpp) with the
    reader of media_client.cpp, and the commands the client writes with the bridge's reader. */
module MediaFrames {
  import opened Bytes
  import opened Wire

  const MAGIC: bytes := "tsmedia1"
  const SAMPLE_FORMAT: bytes := "pcm_s16le"
  const SAMPLE_RATE: nat := 48000
  const CHANNELS: nat := 1

  /** A byte buffer whose size fits a 64-bit size_t. */
  type buffer = s: bytes | |s| < U64_LIMIT witness []

  datatype Speaker = Speaker(handler: u64, client: u64, identity: bytes, nickname: bytes, channel: Option<u64>)

  function SpeakerKey(s: Speaker): bytes {
    Decimal(s.handler) + ":" + Decimal(s.client)
  }

  // ---------- Protocol words ----------

  const HELLO: bytes := "hello"
  const STATUS: bytes := "status"
  const SPEAKER_START: bytes := "speaker.start"
  const SPEAKER_STOP: bytes := "speaker.stop"
  const AUDIO_CHUNK: bytes := "audio.chunk"
  const STARTED: bytes := "playback.started"
  const STOPPED: bytes := "playback.stopped"
  const CLEARED: bytes := "playback.cleared"
  const ERROR: bytes := "error"
  const STATUS_REQUEST: bytes := "status.request"
  const START: bytes := "playback.start"
  const CHUNK: bytes := "playback.chunk"
  const STOP: bytes := "playback.stop"
  const CLEAR: bytes := "playback.clear"
  const INVALID_REQUEST: bytes := "invalid_request"
  const UNSUPPORTED_FORMAT: bytes := "unsupported_format"
  const BAD_FORMAT_MESSAGE: bytes := "unsupported playback format"

  // ---------- Frames from the bridge ----------

  datatype Frame =
    | Hello(at: int, path: bytes)
    | Status(at: int, connected: bool, active: bool, queued: nat, speakers: nat,
             droppedAudio: nat, droppedPlayback: nat, lastError: bytes)
    | SpeakerStart(at: int, speaker: Speaker)
    | SpeakerStop(at: int, speaker: Speaker)
    | AudioChunk(at: int, speaker: Speaker, rate: int, channels: int, count: int, payload: buffer)
    | PlaybackStarted(at: int)
    | PlaybackStopped(at: int, reason: bytes)
    | PlaybackCleared(at: int)
    | ErrorFrame(at: int, code: bytes, message: bytes)

  /** Only audio may be thrown away when the outbound queue is long. */
  predicate Droppable(f: Frame) {
    f.AudioChunk?
  }

  function FrameType(f: Frame): bytes {
    match f
    case Hello(_, _) => HELLO
    case Status(_, _, _, _, _, _, _, _) => STATUS
    case SpeakerStart(_, _) => SPEAKER_START
    case SpeakerStop(_, _) => SPEAKER_STOP
    case AudioChunk(_, _, _, _, _, _) => AUDIO_CHUNK
    case PlaybackStarted(_) => STARTED
    case PlaybackStopped(_, _) => STOPPED
    case PlaybackCleared(_) => CLEARED
    case ErrorFrame(_, _, _) => ERROR
  }

  function SpeakerItems(s: Speaker): seq<Item> {
    [Num(s.handler), Num(s.client), Hex(s.identity), Hex(s.nickname), Maybe(s.channel)]
  }

  function FormatDescription(): bytes {
    SAMPLE_FORMAT + " @" + Decimal(SAMPLE_RATE) + " Hz mono"
  }

  function FrameBody(f: Frame): (r: seq<Item>)
    ensures forall i :: 0 <= i < |r| ==> !r[i].Word?
  {
    match f
    case Hello(_, path) => [Hex(FormatDescription()), Num(SAMPLE_RATE), Num(CHANNELS), Hex(path), Num(1)]
    case Status(_, connected, active, queued, speakers, droppedAudio, droppedPlayback, lastError) =>
      [Flag(connected), Flag(active), Num(queued), Num(speakers),
       Num(droppedAudio), Num(droppedPlayback), Hex(lastError)]
    case SpeakerStart(_, s) => SpeakerItems(s)
    case SpeakerStop(_, s) => SpeakerItems(s)
    case AudioChunk(_, s, rate, channels, count, payload) =>
      SpeakerItems(s) + [Int(rate), Int(channels), Int(count), Num(|payload|)]
    case PlaybackStarted(_) => []
    case PlaybackStopped(_, reason) => [Hex(reason)]
    case PlaybackCleared(_) => []
    case ErrorFrame(_, code, message) => [Hex(code), Hex(message)]
  }

  function FrameItems(f: Frame): seq<Item> {
    [Word(MAGIC), Word(FrameType(f)), Int(f.at)] + FrameBody(f)
  }

  function FrameFields(f: Frame): Fields {
    Texts(FrameItems(f))
  }

  function FramePayload(f: Frame): bytes {
    if f.AudioChunk? then f.payload else []
  }

  /** write_frame: the header line, then the raw payload. */
  function EncodeFrame(f: Frame): bytes {
    JoinFields(FrameFields(f)) + FramePayload(f)
  }

  function EncodeFrames(fs: seq<Frame>): bytes {
    if fs == [] then [] else EncodeFrame(fs[0]) + EncodeFrames(fs[1..])
  }

  datatype FrameRead =
    | FrameIncomplete
    | FrameInvalid
    | FrameRefused(code: bytes, message: bytes, rest: bytes)
    | FrameGot(fields: Fields, rest: bytes)

  function DecodeMediaField(fields: Fields, index: nat, fallback: bytes): bytes {
    if index >= |fields| then fallback
    else
      match HexDecode(fields[index])
      case Ok(text) => text
      case Err(_) => fallback
  }

  /** read_media_frame: a line, then for audio the payload named by the last field is discarded. */
  function ReadFrame(input: bytes): FrameRead {
    match ReadLine(input)
    case NoLine => FrameIncomplete
    case Line(text, rest) =>
      var fields := SplitFields(text);
      if |fields| < 2 || fields[0] != MAGIC then FrameInvalid
      else if fields[1] == AUDIO_CHUNK then
        match ParseU64(fields[|fields| - 1])
        case None => FrameInvalid
        case Some(size) => if |rest| < size then FrameIncomplete else FrameGot(fields, rest[size..])
      else if fields[1] == ERROR then
        FrameRefused(DecodeMediaField(fields, 3, ERROR),
                     DecodeMediaField(fields, 4, "media bridge returned an error"), rest)
      else FrameGot(fields, rest)
  }

  lemma WordsArePlain()
    ensures Plain(MAGIC) && Plain(HELLO) && Plain(STATUS) && Plain(SPEAKER_START) && Plain(SPEAKER_STOP)
    ensures Plain(AUDIO_CHUNK) && Plain(STARTED) && Plain(STOPPED) && Plain(CLEARED) && Plain(ERROR)
    ensures Plain(STATUS_REQUEST) && Plain(START) && Plain(CHUNK) && Plain(STOP) && Plain(CLEAR)
  {
  }

  /** Which of the words the frame reader tests for is this frame's type. */
  lemma FrameTypes(f: Frame)
    ensures FrameType(f) == AUDIO_CHUNK <==> f.AudioChunk?
    ensures FrameType(f) == ERROR <==> f.ErrorFrame?
    ensures FrameType(f) == STARTED <==> f.PlaybackStarted?
    ensures FrameType(f) == STOPPED <==> f.PlaybackStopped?
    ensures FrameType(f) == CLEARED <==> f.PlaybackCleared?
  {
    assert STARTED[11] == 'a' && STOPPED[11] == 'o' && CLEARED[9] == 'c' && STARTED[9] == STOPPED[9] == 's';
    assert |STARTED| == |STOPPED| == |CLEARED| == 16 && |AUDIO_CHUNK| == 11 && |ERROR| == |HELLO| == 5;
    assert |STATUS| == 6 && |SPEAKER_START| == 13 && |SPEAKER_STOP| == 12 && HELLO[0] == 'h' && ERROR[0] == 'e';
  }

  lemma FrameFieldsArePrintable(f: Frame)
    ensures Printable(FrameFields(f))
  {
    WordsArePlain();
    TextsArePrintable(FrameItems(f));
  }

  lemma ReadFrameLine(f: Frame, rest: bytes)
    ensures ReadLine(EncodeFrame(f) + rest) == Line(Join(FrameFields(f), '\t'), FramePayload(f) + rest)
    ensures SplitFields(Join(FrameFields(f), '\t')) == FrameFields(f)
    ensures FrameFields(f)[0] == MAGIC && FrameFields(f)[1] == FrameType(f)
  {
    FrameFieldsArePrintable(f);
    assert EncodeFrame(f) + rest == JoinFields(FrameFields(f)) + (FramePayload(f) + rest);
    LineRoundTrip(FrameFields(f), FramePayload(f) + rest);
    assert FrameItems(f)[0] == Word(MAGIC) && FrameItems(f)[1] == Word(FrameType(f));
  }

  /** One frame at the head of the stream is read back exactly, whatever bytes its payload
      holds, and the bytes after it are untouched. */
  lemma ReadFrameExact(f: Frame, rest: bytes)
    ensures ReadFrame(EncodeFrame(f) + rest) ==
            if f.ErrorFrame? then FrameRefused(f.code, f.message, rest) else FrameGot(FrameFields(f), rest)
  {
    hide ReadLine, EncodeFrame, Join, HexDecode, HexEncode, Decimal;
    var fields, items := FrameFields(f), FrameItems(f);
    ReadFrameLine(f, rest);
    FrameTypes(f);
    if f.AudioChunk? {
      ParseDecimal(|f.payload|);
      assert items[|items| - 1] == Num(|f.payload|);
      assert (f.payload + rest)[|f.payload|..] == rest;
    } else {
      assert FramePayload(f) + rest == rest;
      if f.ErrorFrame? {
        assert items[3] == Hex(f.code) && items[4] == Hex(f.message);
        HexRoundTrip(f.code);
        HexRoundTrip(f.message);
      }
    }
  }

  /** What the client makes of any line, whoever wrote it: an error frame is reported with its code
      and message, or with stand-ins if they are missing or unreadable; an audio frame is passed
      over with the payload it announces; every other frame is handed on. */
  lemma FrameMeaning(fields: Fields, rest: bytes)
    requires Printable(fields)
    ensures var r := ReadFrame(JoinFields(fields) + rest);
            if |fields| < 2 || fields[0] != "tsmedia1" then r == FrameInvalid
            else if fields[1] == "audio.chunk" then
              match ParseU64(fields[|fields| - 1])
              case None => r == FrameInvalid
              case Some(size) =>
                if |rest| < size then r == FrameIncomplete
                else r.FrameGot? && r.fields == fields && |r.rest| == |rest| - size && r.rest == rest[size..]
            else if fields[1] == "error" then
              && r.FrameRefused? && r.rest == rest
              && r.code == (if |fields| > 3 && HexDecode(fields[3]).Ok? then HexDecode(fields[3]).value else "error")
              && r.message == (if |fields| > 4 && HexDecode(fields[4]).Ok? then HexDecode(fields[4]).value
                               else "media bridge returned an error")
            else r == FrameGot(fields, rest)
  {
    hide ReadLine, JoinFields, HexDecode, ParseU64;
    LineRoundTrip(fields, rest);
    assert AUDIO_CHUNK[0] != ERROR[0];
  }

  /** A read that succeeds is not changed by bytes that arrive later, so reading may be
      modelled as one step taken when a whole frame is there. */
  lemma ReadFrameStable(input: bytes, more: bytes)
    requires !ReadFrame(input).FrameIncomplete?
    ensures var r := ReadFrame(input);
            ReadFrame(input + more) ==
            match r
            case FrameIncomplete => r
            case FrameInvalid => r
            case FrameRefused(code, message, rest) => FrameRefused(code, message, rest + more)
            case FrameGot(fields, rest) => FrameGot(fields, rest + more)
  {
    ReadLineAppend(input, more);
    var line := ReadLine(input);
    var fields := SplitFields(line.text);
    if |fields| >= 2 && fields[0] == MAGIC && fields[1] == AUDIO_CHUNK {
      var size := ParseU64(fields[|fields| - 1]);
      if size.Some? {
        assert (line.rest + more)[size.value..] == line.rest[size.value..] + more;
      }
    }
  }

  /** A frame cut short by a failed write never reads as a frame. */
  lemma CutFrameIsIncomplete(f: Frame, cut: nat)
    requires cut < |EncodeFrame(f)|
    ensures ReadFrame(EncodeFrame(f)[..cut]).FrameIncomplete?
  {
    var whole := EncodeFrame(f);
    var part, missing := whole[..cut], whole[cut..];
    assert part + missing == whole && whole + [] == whole;
    ReadFrameExact(f, []);
    if !ReadFrame(part).FrameIncomplete? {
      ReadFrameStable(part, missing);
    }
  }

  lemma ReadFrameShrinks(input: bytes)
    ensures var r := ReadFrame(input); r.FrameGot? ==> |r.rest| < |input| && |r.fields| >= 2
  {
    ReadLineSplits(input);
  }

  datatype Frames = Frames(fields: seq<Fields>, rest: bytes)

  /** The frame reader run until it can read no further frame. */
  function ReadFrames(input: bytes): Frames
    decreases |input|
  {
    ReadFrameShrinks(input);
    match ReadFrame(input)
    case FrameGot(fields, rest) =>
      var more := ReadFrames(rest);
      Frames([fields] + more.fields, more.rest)
    case _ => Frames([], input)
  }

  function FieldsOf(fs: seq<Frame>): (r: seq<Fields>)
    ensures |r| == |fs|
    ensures forall i :: 0 <= i < |fs| ==> r[i] == FrameFields(fs[i])
  {
    if fs == [] then [] else [FrameFields(fs[0])] + FieldsOf(fs[1..])
  }

  /** Framing: any sequence of frames other than errors, written back to back, is recovered
      frame by frame, and the reader ends exactly at the end of the stream. */
  lemma {:induction false} Framing(fs: seq<Frame>)
    requires forall f :: f in fs ==> !f.ErrorFrame?
    ensures ReadFrames(EncodeFrames(fs)) == Frames(FieldsOf(fs), [])
  {
    if fs != [] {
      hide ReadFrame;
      ReadFrameExact(fs[0], EncodeFrames(fs[1..]));
      Framing(fs[1..]);
    }
  }

  lemma {:induction false} EncodeFramesAppend(fs: seq<Frame>, gs: seq<Frame>)
    ensures EncodeFrames(fs + gs) == EncodeFrames(fs) + EncodeFrames(gs)
  {
    if fs == [] {
      assert fs + gs == gs;
    } else {
      assert (fs + gs)[1..] == fs[1..] + gs;
      EncodeFramesAppend(fs[1..], gs);
    }
  }

  // ---------- Speaker frames, as a consumer sees them ----------

  datatype SpeakerChange = SpeakerChange(key: bytes, now: Option<Speaker>)

  /** Channel 0 is how the wire says "no channel". */
  function WireSpeaker(s: Speaker): Speaker {
    if s.channel == Some(0) then s.(channel := None) else s
  }

  /** The positions the documentation gives the fields of a hello. */
  lemma HelloFrameReadable(at: int, path: bytes)
    ensures var fields := FrameFields(Hello(at, path));
            && |fields| == 8 && fields[0] == "tsmedia1" && fields[1] == "hello" && fields[7] == "1"
            && HexDecode(fields[3]) == Ok("pcm_s16le @48000 Hz mono")
            && ParseU64(fields[4]) == Some(48000) && ParseU64(fields[5]) == Some(1)
            && HexDecode(fields[6]) == Ok(path)
  {
    hide HexDecode, HexEncode, Decimal, ParseU64, FormatDescription;
    var items := FrameItems(Hello(at, path));
    assert items[3] == Hex(FormatDescription()) && items[4] == Num(SAMPLE_RATE) && items[5] == Num(CHANNELS);
    assert items[6] == Hex(path) && items[7] == Num(1);
    HexRoundTrip(FormatDescription());
    HexRoundTrip(path);
    ParseDecimal(SAMPLE_RATE);
    ParseDecimal(CHANNELS);
    DescriptionText();
    OneDigit();
  }

  lemma DescriptionText()
    ensures FormatDescription() == "pcm_s16le @48000 Hz mono"
  {
    assert Decimal(48) == Decimal(4) + ['8'];
    assert Decimal(4800) == Decimal(480) + ['0'] && Decimal(480) == Decimal(48) + ['0'];
    assert Decimal(48000) == Decimal(4800) + ['0'];
  }

  lemma OneDigit()
    ensures Decimal(1) == "1"
  {
  }

  /** What a consumer makes of one frame's fields: a speaker begins, ends, or nothing. */
  function ReadSpeaker(fields: Fields): Option<SpeakerChange> {
    if |fields| == 8 && fields[0] == MAGIC && (fields[1] == SPEAKER_START || fields[1] == SPEAKER_STOP) then
      match (ParseU64(fields[3]), ParseU64(fields[4]), HexDecode(fields[5]), HexDecode(fields[6]), ParseU64(fields[7]))
      case (Some(handler), Some(client), Ok(identity), Ok(nickname), Some(channel)) =>
        var s := Speaker(handler, client, identity, nickname, if channel == 0 then None else Some(channel));
        Some(SpeakerChange(fields[3] + ":" + fields[4], if fields[1] == SPEAKER_START then Some(s) else None))
      case _ => None
    else None
  }

  /** What the frame means to a consumer. */
  function ChangeOf(f: Frame): Option<SpeakerChange> {
    match f
    case SpeakerStart(_, s) => Some(SpeakerChange(SpeakerKey(s), Some(WireSpeaker(s))))
    case SpeakerStop(_, s) => Some(SpeakerChange(SpeakerKey(s), None))
    case _ => None
  }

  lemma SpeakerItemsReadable(fields: Fields, s: Speaker)
    requires |fields| == 8 && fields[0] == MAGIC && (fields[1] == SPEAKER_START || fields[1] == SPEAKER_STOP)
    requires fields[3] == Decimal(s.handler) && fields[4] == Decimal(s.client)
    requires fields[5] == HexEncode(s.identity) && fields[6] == HexEncode(s.nickname)
    requires fields[7] == Text(Maybe(s.channel))
    ensures ReadSpeaker(fields) ==
            Some(SpeakerChange(SpeakerKey(s), if fields[1] == SPEAKER_START then Some(WireSpeaker(s)) else None))
  {
    ParseDecimal(s.handler);
    ParseDecimal(s.client);
    HexRoundTrip(s.identity);
    HexRoundTrip(s.nickname);
    ParseDecimal(if s.channel.Some? then s.channel.value else 0);
  }

  lemma SpeakerFrameReadable(f: Frame)
    ensures ReadSpeaker(FrameFields(f)) == ChangeOf(f)
  {
    hide HexDecode, HexEncode, Decimal, ParseU64;
    if f.SpeakerStart? || f.SpeakerStop? {
      var items, s := FrameItems(f), f.speaker;
      assert |items| == 8 && items[0] == Word(MAGIC) && items[1] == Word(FrameType(f));
      assert items[3] == Num(s.handler) && items[4] == Num(s.client) && items[5] == Hex(s.identity);
      assert items[6] == Hex(s.nickname) && items[7] == Maybe(s.channel);
      SpeakerItemsReadable(FrameFields(f), s);
      assert |SPEAKER_START| != |SPEAKER_STOP|;
    } else {
      assert FrameItems(f)[1] == Word(FrameType(f));
      assert FrameType(f)[0] != 's' || FrameType(f)[1] != 'p';
      assert SPEAKER_START[0] == SPEAKER_STOP[0] == 's' && SPEAKER_START[1] == SPEAKER_STOP[1] == 'p';
    }
  }

  // ---------- Status and audio frames, by the documented field positions ----------

  datatype StatusReading = StatusReading(
    connected: bool, active: bool, queued: u64, speakers: u64, droppedAudio: u64,
      droppedPlayback: u64, lastError: bytes)

  function ReadFlag(text: bytes): Option<bool> {
    if text == "1" then Some(true) else if text == "0" then Some(false) else None
  }

  /** A consumer that reads a status header by position. */
  function ReadStatus(fields: Fields): Option<StatusReading> {
    if |fields| != 10 || fields[0] != MAGIC || fields[1] != STATUS then None
    else
      match (ReadFlag(fields[3]), ReadFlag(fields[4]), ParseU64(fields[5]), ParseU64(fields[6]), ParseU64(fields[7]),
             ParseU64(fields[8]), HexDecode(fields[9]))
      case (Some(connected), Some(active), Some(queued), Some(speakers), Some(audio), Some(playback), Ok(error)) =>
        Some(StatusReading(connected, active, queued, speakers, audio, playback, error))
      case _ => None
  }

  lemma StatusFrameReadable(f: Frame)
    requires f.Status? && f.queued < U64_LIMIT && f.speakers < U64_LIMIT
    requires f.droppedAudio < U64_LIMIT && f.droppedPlayback < U64_LIMIT
    ensures ReadStatus(FrameFields(f)) ==
            Some(StatusReading(f.connected, f.active, f.queued, f.speakers, f.droppedAudio,
              f.droppedPlayback, f.lastError))
  {
    hide HexDecode, HexEncode, Decimal, ParseU64;
    var items := FrameItems(f);
    assert |items| == 10 && items[0] == Word(MAGIC) && items[1] == Word(STATUS);
    assert items[3] == Flag(f.connected) && items[4] == Flag(f.active) && items[5] == Num(f.queued);
    assert items[6] == Num(f.speakers) && items[7] == Num(f.droppedAudio) && items[8] == Num(f.droppedPlayback);
    assert items[9] == Hex(f.lastError);
    ParseDecimal(f.queued);
    ParseDecimal(f.speakers);
    ParseDecimal(f.droppedAudio);
    ParseDecimal(f.droppedPlayback);
    HexRoundTrip(f.lastError);
  }

  datatype AudioReading = AudioReading(speaker: Speaker, rate: u64, channels: u64, count: u64, payload: bytes)

  /** A consumer that reads an audio header by position and then the payload it announces. */
  function ReadAudio(fields: Fields, after: bytes): Option<AudioReading> {
    if |fields| != 12 || fields[0] != MAGIC || fields[1] != AUDIO_CHUNK then None
    else
      match (ReadSpeaker([MAGIC, SPEAKER_START] + fields[2..8]), ParseU64(fields[8]), ParseU64(fields[9]),
             ParseU64(fields[10]), ParseU64(fields[11]))
      case (Some(SpeakerChange(_, Some(speaker))), Some(rate), Some(channels), Some(count), Some(size)) =>
        if |after| < size then None else Some(AudioReading(speaker, rate, channels, count, after[..size]))
      case _ => None
  }

  lemma AudioFrameReadable(f: Frame, rest: bytes)
    requires f.AudioChunk? && 0 <= f.rate < U64_LIMIT && 0 <= f.channels < U64_LIMIT && 0 <= f.count < U64_LIMIT
    ensures ReadAudio(FrameFields(f), f.payload + rest) ==
            Some(AudioReading(WireSpeaker(f.speaker), f.rate, f.channels, f.count, f.payload))
  {
    hide HexDecode, HexEncode, Decimal, ParseU64, ReadSpeaker, Texts, SignedDecimal;
    var items, fields, s := FrameItems(f), FrameFields(f), f.speaker;
    assert |items| == 12 && items[0] == Word(MAGIC) && items[1] == Word(AUDIO_CHUNK);
    assert items[3] == Num(s.handler) && items[4] == Num(s.client) && items[5] == Hex(s.identity);
    assert items[6] == Hex(s.nickname) && items[7] == Maybe(s.channel);
    assert items[8] == Int(f.rate) && items[9] == Int(f.channels) && items[10] == Int(f.count);
    assert items[11] == Num(|f.payload|);
    SpeakerItemsReadable([MAGIC, SPEAKER_START] + fields[2..8], s);
    ParseSignedDecimal(f.rate);
    ParseSignedDecimal(f.channels);
    ParseSignedDecimal(f.count);
    ParseDecimal(|f.payload|);
    assert (f.payload + rest)[..|f.payload|] == f.payload;
  }

  // ---------- Commands to the bridge ----------

  datatype Command =
    | Malformed
    | StatusRequest
    | Start
    | StartRejected(code: bytes, message: bytes)
    | Chunk(frames: u64, payload: buffer)
    | ChunkRejected(message: bytes)
    | Stop
    | Clear
    | Unknown

  datatype CommandRead =
    | CommandIncomplete
    | CommandGot(command: Command, rest: bytes)

  function MediaError(code: bytes, message: bytes): Error {
    MakeError("media", code, message, Usage)
  }

  function U64Field(fields: Fields, index: nat, name: bytes): Result<u64> {
    if index >= |fields| then Err(MediaError("missing_field", "missing media bridge field: " + name))
    else
      match ParseU64(fields[index])
      case None => Err(MediaError("invalid_field", "invalid media bridge field: " + name))
      case Some(n) => Ok(n)
  }

  function StringField(fields: Fields, index: nat, name: bytes): Result<bytes> {
    if index >= |fields| then Err(MediaError("missing_field", "missing media bridge field: " + name))
    else HexDecode(fields[index])
  }

  function ReadStart(fields: Fields): Command {
    var format := StringField(fields, 2, "format");
    var rate := U64Field(fields, 3, "sample_rate");
    var channels := U64Field(fields, 4, "channels");
    if format.Err? then StartRejected(INVALID_REQUEST, format.error.message)
    else if rate.Err? then StartRejected(INVALID_REQUEST, rate.error.message)
    else if channels.Err? then StartRejected(INVALID_REQUEST, channels.error.message)
    else if format.value != SAMPLE_FORMAT || rate.value != SAMPLE_RATE || channels.value != CHANNELS then
      StartRejected(UNSUPPORTED_FORMAT, BAD_FORMAT_MESSAGE)
    else Start
  }

  function ReadChunk(fields: Fields, rest: bytes): CommandRead {
    var frames := U64Field(fields, 2, "frame_count");
    var size := U64Field(fields, 3, "payload_bytes");
    if frames.Err? then CommandGot(ChunkRejected(frames.error.message), rest)
    else if size.Err? then CommandGot(ChunkRejected(size.error.message), rest)
    else if |rest| < size.value then CommandIncomplete
    else CommandGot(Chunk(frames.value, rest[..size.value]), rest[size.value..])
  }

  function ReadFields(fields: Fields, rest: bytes): CommandRead {
    if |fields| < 2 || fields[0] != MAGIC then CommandGot(Malformed, rest)
    else if fields[1] == STATUS_REQUEST then CommandGot(StatusRequest, rest)
    else if fields[1] == START then CommandGot(ReadStart(fields), rest)
    else if fields[1] == CHUNK then ReadChunk(fields, rest)
    else if fields[1] == STOP then CommandGot(Stop, rest)
    else if fields[1] == CLEAR then CommandGot(Clear, rest)
    else CommandGot(Unknown, rest)
  }

  /** The reading half of reader_loop: which bytes one round takes from the socket, and what
      it makes of them. It looks at the bytes alone, not at the playback state. */
  function ReadCommand(input: bytes): CommandRead {
    match ReadLine(input)
    case NoLine => CommandIncomplete
    case Line(text, rest) => ReadFields(SplitFields(text), rest)
  }

  // What each line means, whoever wrote it.

  predicate Headed(fields: Fields, word: bytes) {
    |fields| >= 2 && fields[0] == "tsmedia1" && fields[1] == word
  }

  predicate Numeral(fields: Fields, index: nat) {
    index < |fields| && ParseU64(fields[index]).Some?
  }

  predicate HexText(fields: Fields, index: nat) {
    index < |fields| && HexDecode(fields[index]).Ok?
  }

  lemma CommandMeaning(fields: Fields, rest: bytes)
    ensures var r := ReadFields(fields, rest);
            && (r == CommandGot(Malformed, rest) <==> |fields| < 2 || fields[0] != "tsmedia1")
            && (r == CommandGot(StatusRequest, rest) <==> Headed(fields, "status.request"))
            && (r == CommandGot(Stop, rest) <==> Headed(fields, "playback.stop"))
            && (r == CommandGot(Clear, rest) <==> Headed(fields, "playback.clear"))
            && (r == CommandGot(Unknown, rest) <==>
                  |fields| >= 2 && fields[0] == "tsmedia1" &&
                  fields[1] !in ["status.request", "playback.start", "playback.chunk",
                                 "playback.stop", "playback.clear"])
  {
    hide ParseU64, HexDecode;
    CommandWordsDiffer();
  }

  /** Playback is started by the one supported format and by nothing else. */
  lemma StartMeaning(fields: Fields, rest: bytes)
    ensures var r := ReadFields(fields, rest);
            var readable := HexText(fields, 2) && Numeral(fields, 3) && Numeral(fields, 4);
            var supported := readable && HexDecode(fields[2]).value == "pcm_s16le" &&
                             ParseU64(fields[3]).value == 48000 && ParseU64(fields[4]).value == 1;
            && (r == CommandGot(Start, rest) <==> Headed(fields, "playback.start") && supported)
            && (Headed(fields, "playback.start") && !supported ==>
                  r.CommandGot? && r.rest == rest && r.command.StartRejected? &&
                  r.command.code == if readable then "unsupported_format" else "invalid_request")
  {
    hide ParseU64, HexDecode;
    CommandWordsDiffer();
  }

  /** A chunk takes exactly the bytes it announces, and waits for them. */
  lemma ChunkMeaning(fields: Fields, rest: bytes)
    requires Headed(fields, "playback.chunk")
    ensures var r := ReadFields(fields, rest);
            if !Numeral(fields, 2) || !Numeral(fields, 3) then
              r.CommandGot? && r.command.ChunkRejected? && r.rest == rest
            else
              var size := ParseU64(fields[3]).value;
              if |rest| < size then r == CommandIncomplete
              else r.CommandGot? && r.command.Chunk? && r.command.frames == ParseU64(fields[2]).value &&
                   |r.command.payload| == size && r.command.payload + r.rest == rest
  {
    hide ParseU64;
    CommandWordsDiffer();
  }

  /** The commands a well-behaved client writes. */
  predicate Sendable(c: Command) {
    c.StatusRequest? || c.Start? || c.Chunk? || c.Stop? || c.Clear?
  }

  function CommandItems(c: Command): seq<Item>
    requires Sendable(c)
  {
    match c
    case StatusRequest => [Word(MAGIC), Word(STATUS_REQUEST)]
    case Start => [Word(MAGIC), Word(START), Hex(SAMPLE_FORMAT), Num(SAMPLE_RATE), Num(CHANNELS)]
    case Chunk(frames, payload) => [Word(MAGIC), Word(CHUNK), Num(frames), Num(|payload|)]
    case Stop => [Word(MAGIC), Word(STOP)]
    case Clear => [Word(MAGIC), Word(CLEAR)]
  }

  function CommandFields(c: Command): Fields
    requires Sendable(c)
  {
    Texts(CommandItems(c))
  }

  function EncodeCommand(c: Command): bytes
    requires Sendable(c)
  {
    JoinFields(CommandFields(c)) + if c.Chunk? then c.payload else []
  }

  function EncodeCommands(cs: seq<Command>): bytes
    requires forall c :: c in cs ==> Sendable(c)
  {
    if cs == [] then [] else EncodeCommand(cs[0]) + EncodeCommands(cs[1..])
  }

  lemma CommandWordsDiffer()
    ensures START != STATUS_REQUEST
    ensures CHUNK != STATUS_REQUEST && CHUNK != START
    ensures STOP != STATUS_REQUEST && STOP != START
    ensures STOP != CHUNK
    ensures CLEAR != STATUS_REQUEST && CLEAR != START
    ensures CLEAR != CHUNK && CLEAR != STOP
  {
    assert START[0] != STATUS_REQUEST[0];
    assert CHUNK[0] != STATUS_REQUEST[0] && CHUNK[9] != START[9];
    assert |STOP| == 13 && |START| == 14 && |CHUNK| == 14;
    assert |CLEAR| == 14 && CLEAR[9] != START[9];
    assert CLEAR[10] != CHUNK[10];
  }

  lemma CommandFieldsArePrintable(c: Command)
    requires Sendable(c)
    ensures Printable(CommandFields(c))
  {
    WordsArePlain();
    TextsArePrintable(CommandItems(c));
  }

  lemma ReadCommandLine(c: Command, rest: bytes)
    requires Sendable(c)
    ensures var payload := if c.Chunk? then c.payload else [];
            ReadLine(EncodeCommand(c) + rest) == Line(Join(CommandFields(c), '\t'), payload + rest)
    ensures SplitFields(Join(CommandFields(c), '\t')) == CommandFields(c)
  {
    hide CommandFields, Join, ReadLine, SplitFields;
    var payload: bytes := if c.Chunk? then c.payload else [];
    CommandFieldsArePrintable(c);
    assert EncodeCommand(c) + rest == JoinFields(CommandFields(c)) + (payload + rest);
    LineRoundTrip(CommandFields(c), payload + rest);
  }

  lemma ReadChunkExact(c: Command, rest: bytes)
    requires c.Chunk?
    ensures ReadChunk(CommandFields(c), c.payload + rest) == CommandGot(c, rest)
  {
    assert CommandItems(c)[2] == Num(c.frames) && CommandItems(c)[3] == Num(|c.payload|);
    ParseDecimal(c.frames);
    ParseDecimal(|c.payload|);
    assert (c.payload + rest)[..|c.payload|] == c.payload;
    assert (c.payload + rest)[|c.payload|..] == rest;
  }

  lemma ReadStartFields(fields: Fields, format: bytes, rate: u64, channels: u64)
    requires |fields| == 5
    requires fields[2] == HexEncode(format) && fields[3] == Decimal(rate) && fields[4] == Decimal(channels)
    ensures ReadStart(fields) ==
            if format != SAMPLE_FORMAT || rate != SAMPLE_RATE || channels != CHANNELS
            then StartRejected(UNSUPPORTED_FORMAT, BAD_FORMAT_MESSAGE) else Start
  {
    HexRoundTrip(format);
    ParseDecimal(rate);
    ParseDecimal(channels);
  }

  lemma ReadStartExact(c: Command)
    requires c.Start?
    ensures ReadStart(CommandFields(c)) == Start
  {
    var items := CommandItems(c);
    var format, rate, channels := items[2].text, items[3].value, items[4].value;
    ReadStartFields(Texts(items), format, rate, channels);
  }

  lemma ReadFieldsExact(c: Command, rest: bytes)
    requires Sendable(c)
    ensures ReadFields(CommandFields(c), (if c.Chunk? then c.payload else []) + rest) == CommandGot(c, rest)
  {
    CommandWordsDiffer();
    var items := CommandItems(c);
    assert items[0] == Word(MAGIC);
    if c.Chunk? {
      assert items[1] == Word(CHUNK);
      ReadChunkExact(c, rest);
    } else {
      assert [] + rest == rest;
      if c.Start? {
        assert items[1] == Word(START);
        ReadStartExact(c);
      }
    }
  }

  /** A command at the head of the stream is decoded to itself, payload and all. */
  lemma ReadCommandExact(c: Command, rest: bytes)
    requires Sendable(c)
    ensures ReadCommand(EncodeCommand(c) + rest) == CommandGot(c, rest)
  {
    ReadCommandLine(c, rest);
    ReadFieldsExact(c, rest);
  }

  lemma ReadCommandStable(input: bytes, more: bytes)
    requires ReadCommand(input).CommandGot?
    ensures ReadCommand(input + more) == CommandGot(ReadCommand(input).command, ReadCommand(input).rest + more)
  {
    ReadLineAppend(input, more);
    var line := ReadLine(input);
    var fields := SplitFields(line.text);
    if |fields| >= 2 && fields[0] == MAGIC && fields[1] == CHUNK {
      CommandWordsDiffer();
      var size := U64Field(fields, 3, "payload_bytes");
      if size.Ok? && U64Field(fields, 2, "frame_count").Ok? {
        assert (line.rest + more)[..size.value] == line.rest[..size.value];
        assert (line.rest + more)[size.value..] == line.rest[size.value..] + more;
      }
    }
  }

  datatype Commands = Commands(list: seq<Command>, rest: bytes)

  lemma ReadCommandShrinks(input: bytes)
    ensures ReadCommand(input).CommandGot? ==> |ReadCommand(input).rest| < |input|
  {
    ReadLineSplits(input);
  }

  function ReadCommands(input: bytes): Commands
    decreases |input|
  {
    ReadCommandShrinks(input);
    match ReadCommand(input)
    case CommandIncomplete => Commands([], input)
    case CommandGot(c, rest) =>
      var more := ReadCommands(rest);
      Commands([c] + more.list, more.rest)
  }

  lemma ReadCommandsStep(input: bytes, c: Command, rest: bytes)
    requires ReadCommand(input) == CommandGot(c, rest)
    ensures ReadCommands(input) == Commands([c] + ReadCommands(rest).list, ReadCommands(rest).rest)
  {
    hide ReadCommand;
    ReadCommandShrinks(input);
  }

  /** Resynchronisation: a well-formed command sequence is decoded to itself. Rejected chunks
      are in it like accepted ones, because decoding never asks the playback state. */
  lemma {:induction false} CommandsRoundTrip(cs: seq<Command>)
    requires forall c :: c in cs ==> Sendable(c)
    ensures ReadCommands(EncodeCommands(cs)) == Commands(cs, [])
  {
    if cs != [] {
      hide EncodeCommand, ReadCommand, ReadCommands;
      ReadCommandExact(cs[0], EncodeCommands(cs[1..]));
      ReadCommandsStep(EncodeCommands(cs), cs[0], EncodeCommands(cs[1..]));
      CommandsRoundTrip(cs[1..]);
    }
  }

  lemma {:induction false} EncodeCommandsAppend(cs: seq<Command>, ds: seq<Command>)
    requires forall c :: c in cs ==> Sendable(c)
    requires forall c :: c in ds ==> Sendable(c)
    ensures forall c :: c in cs + ds ==> Sendable(c)
    ensures EncodeCommands(cs + ds) == EncodeCommands(cs) + EncodeCommands(ds)
  {
    if cs == [] {
      assert cs + ds == ds;
    } else {
      assert (cs + ds)[1..] == cs[1..] + ds;
      EncodeCommandsAppend(cs[1..], ds);
    }
  }

  // ---------- Samples ----------

  type Sample = n: int | -0x8000 <= n < 0x8000

  /** Two bytes, low byte first, as a signed 16-bit sample. */
  function SampleOf(lo: byte, hi: byte): Sample {
    var u := lo as int + 256 * hi as int;
    if u < 0x8000 then u else u - 0x1_0000
  }

  /** The samples in a PCM buffer; an odd last byte is in none of them. */
  function Samples(pcm: bytes): (r: seq<Sample>)
    ensures |r| == |pcm| / 2
  {
    if |pcm| < 2 then [] else [SampleOf(pcm[0], pcm[1])] + Samples(pcm[2..])
  }

  lemma {:induction false} SamplesAppend(a: bytes, b: bytes)
    requires |a| % 2 == 0
    ensures Samples(a + b) == Samples(a) + Samples(b)
  {
    if a == [] {
      assert a + b == b;
    } else {
      assert (a + b)[2..] == a[2..] + b;
      SamplesAppend(a[2..], b);
    }
  }

  /** A sample as a writer of pcm_s16le lays it out: modulo 65536, low byte first. */
  function SampleBytes(x: Sample): bytes {
    [(x % 0x1_0000 % 256) as char, (x % 0x1_0000 / 256) as char]
  }

  function Pcm(xs: seq<Sample>): (r: bytes)
    ensures |r| == 2 * |xs|
  {
    if xs == [] then [] else SampleBytes(xs[0]) + Pcm(xs[1..])
  }

  lemma SampleIsRead(x: Sample)
    ensures SampleOf(SampleBytes(x)[0], SampleBytes(x)[1]) == x
  {
    var u := x % 0x1_0000;
    assert u == u % 256 + 256 * (u / 256);
    assert u == if x < 0 then x + 0x1_0000 else x;
  }

  lemma SampleIsWritten(lo: byte, hi: byte)
    ensures SampleBytes(SampleOf(lo, hi)) == [lo, hi]
  {
    var u := lo as int + 256 * hi as int;
    assert SampleOf(lo, hi) % 0x1_0000 == u;
    assert u % 256 == lo as int && u / 256 == hi as int;
  }

  /** The samples read from a buffer are the ones that were written to it ... */
  lemma {:induction false} SamplesOfPcm(xs: seq<Sample>)
    ensures Samples(Pcm(xs)) == xs
  {
    if xs != [] {
      hide SampleBytes, SampleOf;
      SampleIsRead(xs[0]);
      SamplesOfPcm(xs[1..]);
      var b := SampleBytes(xs[0]);
      assert |b| == 2 by { TwoBytes(xs[0]); }
      assert Pcm(xs)[0] == b[0] && Pcm(xs)[1] == b[1] && Pcm(xs)[2..] == Pcm(xs[1..]);
    }
  }

  lemma TwoBytes(x: Sample)
    ensures |SampleBytes(x)| == 2
  {
  }

  /** ... and every buffer of whole samples is written by exactly one list of samples. */
  lemma {:induction false} PcmOfSamples(pcm: bytes)
    requires |pcm| % 2 == 0
    ensures Pcm(Samples(pcm)) == pcm
  {
    if pcm != [] {
      hide SampleBytes, SampleOf;
      SampleIsWritten(pcm[0], pcm[1]);
      PcmOfSamples(pcm[2..]);
      var xs := Samples(pcm);
      assert xs[0] == SampleOf(pcm[0], pcm[1]) && xs[1..] == Samples(pcm[2..]);
      assert [pcm[0], pcm[1]] + pcm[2..] == pcm;
    }
  }

  /** A consumer that reads an audio frame by position hears the samples that were published. */
  lemma PublishedIsHeard(at: int, sp: Speaker, rate: u64, channels: u64, count: u64, xs: seq<Sample>, rest: bytes)
    requires 2 * |xs| < U64_LIMIT
    ensures var f := AudioChunk(at, sp, rate, channels, count, Pcm(xs));
            var heard := ReadAudio(FrameFields(f), f.payload + rest);
            heard.Some? && Samples(heard.value.payload) == xs && heard.value.speaker == WireSpeaker(sp)
  {
    hide FrameFields, ReadAudio, Samples, Pcm;
    AudioFrameReadable(AudioChunk(at, sp, rate, channels, count, Pcm(xs)), rest);
    SamplesOfPcm(xs);
  }
}
