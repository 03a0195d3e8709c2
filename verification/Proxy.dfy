/** A backend behind a socket (socket_server.cpp) called through the socket (socket_backend.cpp)
    behaves as the backend itself, up to what the lines between them cannot carry. */
module Proxy {
  import opened Bytes
  import opened Wire
  import opened Records
  import opened Control

  /** Any implementation of sdk::Backend: what a call returns and does to the state. */
  type Backend<!S> = (S, Call) -> (S, Result<Reply>)

  /** Where the client looks for the control and media sockets. */
  datatype Paths = Paths(control: bytes, media: bytes)

  // ---------- The server ----------

  /** handle_client: one request line in, a reply out. The backend is called at most once. */
  ghost function Answer<S>(backend: Backend<S>, s: S, input: bytes): (S, bytes) {
    match ReadLine(input)
    case NoLine => (s, [])
    case Line(text, _) =>
      match DecodeCall(SplitFields(text))
      case Err(e) => (s, WriteLines(ReplyLines(Err(e))))
      case Ok(call) =>
        var (t, r) := backend(s, call);
        (t, WriteLines(ReplyLines(r)))
  }

  // ---------- The client ----------

  function Expected(call: Call): bytes {
    match call
    case GetPluginInfo => INFO_TAG
    case GetState => STATE_TAG
    case GetServer => SERVER_TAG
    case ListChannels => CHANNELS_TYPE
    case ListClients => CLIENTS_TYPE
    case GetChannel(_) => CHANNEL_TAG
    case RenameChannel(_, _) => CHANNEL_TAG
    case GetClient(_) => CLIENT_TAG
    case ApplyGroup(_, _, _) => GROUP_TAG
    case NextEvent(_) => EVENT_TAG
    case _ => VOID
  }

  function Unexpected(got: bytes, expected: bytes): Error {
    BridgeError("unexpected_response", "bridge returned " + got + " for " + expected, Internal)
  }

  /** `front()` of an empty list is undefined in the source; no server sends such a reply. */
  const NO_FRONT: Error := BridgeError("undefined", "", Internal)

  function DecodePayload(call: Call, lines: seq<Fields>): Result<Reply> {
    match call
    case GetPluginInfo =>
      var info :- DecodePluginInfo(lines);
      Ok(InfoReply(info))
    case GetState =>
      var state :- DecodeState(lines);
      Ok(StateReply(state))
    case GetServer =>
      var server :- DecodeServer(lines);
      Ok(ServerReply(server))
    case ListChannels =>
      var channels :- DecodeEach(DecodeChannel, lines);
      Ok(ChannelsReply(channels))
    case ListClients =>
      var clients :- DecodeEach(DecodeClient, lines);
      Ok(ClientsReply(clients))
    case GetChannel(_) => FirstChannel(lines)
    case RenameChannel(_, _) => FirstChannel(lines)
    case GetClient(_) =>
      var clients :- DecodeEach(DecodeClient, lines);
      if clients == [] then Err(NO_FRONT) else Ok(ClientReply(clients[0]))
    case ApplyGroup(_, _, _) =>
      var application :- DecodeApplication(lines);
      Ok(ApplicationReply(application))
    case NextEvent(_) =>
      var event :- DecodeEvent(lines);
      Ok(EventReply(event))
    case _ => Ok(Done)
  }

  function FirstChannel(lines: seq<Fields>): Result<Reply> {
    var channels :- DecodeEach(DecodeChannel, lines);
    if channels == [] then Err(NO_FRONT) else Ok(ChannelReply(channels[0]))
  }

  const CONNECT_FAILED: bytes := "socket_connect_failed"
  const MEDIA_TRANSPORT: bytes := "unix-stream/frame-v1"
  const MEDIA_FORMAT: bytes := "pcm_s16le @48000 Hz mono"

  /** What plugin_info answers when the plugin cannot be reached. */
  function Unavailable(paths: Paths, note: bytes): PluginInfo {
    PluginInfo("plugin", "unix-socket", "ts3cli-plugin", "unavailable", false, paths.control,
               MEDIA_TRANSPORT, paths.media, MEDIA_FORMAT, note, NO_DIAGNOSTICS)
  }

  function Conclude(call: Call, paths: Paths, response: Result<Response>): Result<Reply> {
    match response
    case Err(e) =>
      if call.GetPluginInfo? && e.code == CONNECT_FAILED then Ok(InfoReply(Unavailable(paths, e.message))) else Err(e)
    case Ok(r) =>
      if r.kind != Expected(call) then Err(Unexpected(r.kind, Expected(call)))
      else DecodePayload(call, r.payload)
  }

  /** A call made through SocketBackend. */
  ghost function Remote<S>(backend: Backend<S>, s: S, call: Call, paths: Paths): (S, Result<Reply>) {
    var (t, output) := Answer(backend, s, JoinFields(Request(call)));
    (t, Conclude(call, paths, ReadResponse(output)))
  }

  // ---------- What the caller sees ----------

  /** A result that a backend can return: of the operation's type, with an exit code that is a
      C++ int. */
  predicate Carries(call: Call, r: Result<Reply>) {
    match r
    case Err(e) => FitsInt(e.exit.Number())
    case Ok(reply) =>
      Suits(call, reply) && (reply.EventReply? && reply.event.Some? ==> Storable(reply.event.value))
  }

  function SeenReply(reply: Reply): Result<Reply> {
    match reply
    case ServerReply(server) => Ok(ServerReply(server.(current := WireChannel(server.current))))
    case ChannelsReply(channels) => Ok(ChannelsReply(Each(WiredChannel, channels)))
    case ClientsReply(clients) => Ok(ClientsReply(Each(WiredClient, clients)))
    case ChannelReply(channel) => Ok(ChannelReply(WiredChannel(channel)))
    case ClientReply(client) => Ok(ClientReply(WiredClient(client)))
    case ApplicationReply(application) => Ok(ApplicationReply(WiredApplication(application)))
    case EventReply(event) =>
      if event.None? then Ok(reply)
      else if Millis(event.value.at) < 0 then Err(InvalidNumber("event_timestamp"))
      else Ok(EventReply(Some(WiredEvent(event.value))))
    case _ => Ok(reply)
  }

  /** What becomes of a result on its way back. */
  function Seen(call: Call, r: Result<Reply>, paths: Paths): Result<Reply> {
    match r
    case Err(e) =>
      var w := WireError(e);
      if call.GetPluginInfo? && w.code == CONNECT_FAILED then Ok(InfoReply(Unavailable(paths, w.message))) else Err(w)
    case Ok(reply) => SeenReply(reply)
  }

  lemma RecordLine(tag: bytes, items: seq<Item>)
    requires Plain(tag) && PlainWords(items) && items != []
    ensures PayloadLine(EncodeRecord(tag, items))
  {
    hide Texts, Printable;
    RecordIsPrintable(tag, items);
    assert |EncodeRecord(tag, items)| != |[END]|;
  }

  lemma TagsArePlain()
    ensures Plain(INFO_TAG) && Plain(STATE_TAG) && Plain(SERVER_TAG) && Plain(CHANNEL_TAG) && Plain(CLIENT_TAG)
    ensures Plain(GROUP_TAG) && Plain(EVENT_TAG) && Plain(NO_EVENT) && Plain(VOID)
    ensures Plain(CHANNELS_TYPE) && Plain(CLIENTS_TYPE)
  {
  }

  lemma ChannelLine(c: Channel)
    ensures PayloadLine(EncodeChannel(c))
  {
    hide Texts;
    TagsArePlain();
    RecordLine(CHANNEL_TAG, ChannelItems(c));
  }

  lemma ClientLine(c: Client)
    ensures PayloadLine(EncodeClient(c))
  {
    hide Texts;
    TagsArePlain();
    RecordLine(CLIENT_TAG, ClientItems(c));
  }

  lemma EventLine(event: Option<Event>)
    ensures |EncodeEvent(event)| == 1 && PayloadLine(EncodeEvent(event)[0])
  {
    TagsArePlain();
    if event.Some? {
      hide SortedKeys, Texts, PayloadLine, PairItems, Plain;
      var e := event.value;
      var keys := SortedKeys(e.fields.Keys);
      PairsHaveNoWords(keys, e.fields);
      PlainWordsAppend(EventHead(e), PairItems(keys, e.fields));
      EventHeadSize(e);
      RecordLine(EVENT_TAG, EventHead(e) + PairItems(keys, e.fields));
    } else {
      assert |NO_EVENT| != |END|;
    }
  }

  lemma InfoLine(p: PluginInfo)
    ensures PayloadLine(EncodePluginInfo(p)[0])
  {
    hide Texts, PayloadLine, InfoItems, DiagnosticItems;
    TagsArePlain();
    InfoHasNoWords(p);
    RecordLine(INFO_TAG, InfoItems(p) + DiagnosticItems(p.diagnostics));
  }

  lemma BindingHasNoWords(b: Binding)
    ensures PlainWords(BindingItems(b))
  {
  }

  lemma StatusHasNoWords(d: Diagnostics)
    ensures PlainWords(StatusItems(d)) && PlainWords(DeviceItems(d))
  {
  }

  lemma InfoHasNoWords(p: PluginInfo)
    ensures PlainWords(InfoItems(p) + DiagnosticItems(p.diagnostics))
    ensures InfoItems(p) != []
  {
    hide BindingItems, StatusItems, DeviceItems;
    var d := p.diagnostics;
    BindingHasNoWords(d.capture);
    BindingHasNoWords(d.playback);
    StatusHasNoWords(d);
    PlainWordsAppend(BindingItems(d.capture), BindingItems(d.playback));
    PlainWordsAppend(BindingItems(d.capture) + BindingItems(d.playback), StatusItems(d));
    PlainWordsAppend(BindingItems(d.capture) + BindingItems(d.playback) + StatusItems(d), DeviceItems(d));
    PlainWordsAppend(InfoItems(p), DiagnosticItems(d));
  }

  lemma StateLine(s: ConnectionState)
    ensures PayloadLine(EncodeState(s)[0])
  {
    hide Texts, PayloadLine, PhaseWord;
    TagsArePlain();
    PhaseWordsDiffer(s.phase);
    RecordLine(STATE_TAG, StateItems(s));
  }

  lemma ServerLine(s: ServerInfo)
    ensures PayloadLine(EncodeServer(s)[0])
  {
    hide Texts, PayloadLine;
    TagsArePlain();
    RecordLine(SERVER_TAG, ServerItems(s));
  }

  lemma ApplicationLines(a: Application)
    ensures forall i :: 0 <= i < |EncodeApplication(a)| ==> PayloadLine(EncodeApplication(a)[i])
  {
    hide Texts, PayloadLine, EncodeClient;
    TagsArePlain();
    RecordLine(GROUP_TAG, GroupItems(a));
    if a.client.Some? {
      ClientLine(a.client.value);
    }
  }

  /** Every payload line is one line of fields and none of them reads as the final "end". */
  lemma PayloadLines(reply: Reply)
    ensures forall i :: 0 <= i < |Payload(reply)| ==> PayloadLine(Payload(reply)[i])
    ensures Plain(ReplyType(reply))
  {
    hide PayloadLine, EncodeChannel, EncodeClient, EncodeApplication, EncodeEvent, Texts, Plain, SortedKeys;
    TagsArePlain();
    match reply
    case InfoReply(info) => InfoLine(info);
    case StateReply(state) => StateLine(state);
    case ServerReply(server) => ServerLine(server);
    case ChannelsReply(channels) =>
      forall i | 0 <= i < |channels| ensures PayloadLine(Payload(reply)[i]) { ChannelLine(channels[i]); }
    case ClientsReply(clients) =>
      forall i | 0 <= i < |clients| ensures PayloadLine(Payload(reply)[i]) { ClientLine(clients[i]); }
    case ChannelReply(channel) => ChannelLine(channel);
    case ClientReply(client) => ClientLine(client);
    case ApplicationReply(application) => ApplicationLines(application);
    case EventReply(event) => EventLine(event);
    case Done =>
  }

  lemma ExpectedType(call: Call, reply: Reply)
    requires Suits(call, reply)
    ensures ReplyType(reply) == Expected(call)
  {
  }

  lemma OneChannel(c: Channel)
    ensures DecodeEach(DecodeChannel, [EncodeChannel(c)]) == Ok([WiredChannel(c)])
  {
    hide DecodeChannel, EncodeChannel, WiredChannel, DecodeEach;
    ChannelsRoundTrip([c]);
    assert Each(EncodeChannel, [c]) == [EncodeChannel(c)];
    assert Each(WiredChannel, [c]) == [WiredChannel(c)];
  }

  lemma OneClientBack(c: Client)
    ensures DecodeEach(DecodeClient, [EncodeClient(c)]) == Ok([WiredClient(c)])
  {
    hide DecodeClient, EncodeClient, WiredClient, DecodeEach;
    ClientsRoundTrip([c]);
    assert Each(EncodeClient, [c]) == [EncodeClient(c)];
    assert Each(WiredClient, [c]) == [WiredClient(c)];
  }

  lemma PayloadBack(call: Call, reply: Reply)
    requires Carries(call, Ok(reply))
    ensures DecodePayload(call, Payload(reply)) == SeenReply(reply)
  {
    hide DecodeEach, DecodePluginInfo, DecodeState, DecodeServer, DecodeApplication, DecodeEvent, Texts, SortedKeys,
         EncodeEvent, EncodeApplication, EncodePluginInfo, EncodeState, EncodeServer, Millis, Each;
    match reply
    case InfoReply(info) => PluginInfoRoundTrip(info);
    case StateReply(state) => StateRoundTrip(state);
    case ServerReply(server) => ServerRoundTrip(server);
    case ChannelsReply(channels) => ChannelsRoundTrip(channels);
    case ClientsReply(clients) => ClientsRoundTrip(clients);
    case ChannelReply(channel) => OneChannel(channel);
    case ClientReply(client) => OneClientBack(client);
    case ApplicationReply(application) => ApplicationRoundTrip(application);
    case EventReply(event) => EventRoundTrip(event);
    case Done =>
  }

  lemma ReplyComesBack(call: Call, r: Result<Reply>, paths: Paths)
    requires Carries(call, r)
    ensures Conclude(call, paths, ReadResponse(WriteLines(ReplyLines(r)))) == Seen(call, r, paths)
  {
    hide Payload, WriteLines, ReadResponse, DecodePayload, PayloadLine, SeenReply,
      EncodeError, DecodeError, WireError, Unavailable;
    match r
    case Err(e) =>
      assert [EncodeError(e), [END]] == [EncodeError(e)] + [[END]];
      ErrorResponse(e, [[END]]);
      ErrorRoundTrip(e);
    case Ok(reply) =>
      PayloadLines(reply);
      ExpectedType(call, reply);
      ResponseRoundTrip(ReplyType(reply), Payload(reply));
      PayloadBack(call, reply);
  }

  lemma ServerGetsCall<S>(backend: Backend<S>, s: S, call: Call)
    ensures Answer(backend, s, JoinFields(Request(call))) ==
            match Delivered(call)
            case Err(e) => (s, WriteLines(ReplyLines(Err(e))))
            case Ok(c) => var (t, r) := backend(s, c); (t, WriteLines(ReplyLines(r)))
  {
    hide ReplyLines, WriteLines, Request, DecodeCall, Delivered, ReadLine, SplitFields, JoinFields;
    RequestIsPrintable(call);
    LineRoundTrip(Request(call), []);
    assert JoinFields(Request(call)) + [] == JoinFields(Request(call));
    RequestArrives(call);
  }

  lemma RefusalIsCarried(call: Call)
    ensures Delivered(call).Err? ==> Carries(call, Err(Delivered(call).error))
    ensures Delivered(call).Ok? ==> forall r :: Carries(Delivered(call).value, r) ==> Carries(call, r)
    ensures Delivered(call).Ok? ==> (Delivered(call).value.GetPluginInfo? <==> call.GetPluginInfo?)
  {
  }

  /** Refinement: a remote call is one call of the backend, with the same arguments, and the
      backend's own result seen through the wire; or it is refused without calling it. */
  lemma RemoteRefinesLocal<S>(backend: Backend<S>, s: S, call: Call, paths: Paths)
    requires Delivered(call).Ok? ==> Carries(call, backend(s, Delivered(call).value).1)
    ensures Remote(backend, s, call, paths) ==
            match Delivered(call)
            case Err(e) => (s, Seen(call, Err(e), paths))
            case Ok(c) => (backend(s, c).0, Seen(call, backend(s, c).1, paths))
  {
    hide ReplyLines, WriteLines, Request, Delivered, Answer, ReadResponse, Conclude, Seen, Carries, JoinFields;
    ServerGetsCall(backend, s, call);
    RefusalIsCarried(call);
    match Delivered(call)
    case Err(e) => ReplyComesBack(call, Err(e), paths);
    case Ok(c) => ReplyComesBack(call, backend(s, c).1, paths);
  }

  lemma {:induction false} HexErrors(s: bytes)
    requires |s| % 2 == 0
    ensures HexPairs(s).Err? ==> HexPairs(s).error == NON_HEX
  {
    if s != [] {
      HexErrors(s[2..]);
    }
  }

  /** An error that the wire carries unchanged. */
  predicate Light<T>(r: Result<T>) {
    r.Err? ==> r.error.details == map[] && !r.error.exit.Unnamed?
  }

  lemma HexArgumentIsLight(fields: Fields, index: nat, name: bytes)
    ensures Light(HexArgument(fields, index, name))
  {
    if index < |fields| && |fields[index]| % 2 == 0 {
      HexErrors(fields[index]);
    }
  }

  lemma ConnectIsLight(fields: Fields)
    ensures Light(ReadConnect(fields))
  {
    hide HexArgument, ParseU64;
    HexArgumentIsLight(fields, 2, "host");
    HexArgumentIsLight(fields, 4, "nickname");
    HexArgumentIsLight(fields, 5, "identity");
    HexArgumentIsLight(fields, 6, "server_password");
    HexArgumentIsLight(fields, 7, "channel_password");
    HexArgumentIsLight(fields, 8, "default_channel");
    HexArgumentIsLight(fields, 9, "profile_name");
  }

  lemma MessageIsLight(fields: Fields)
    ensures Light(ReadMessage(fields)) && Light(ReadGroup(fields))
  {
    hide HexArgument, ParseU64;
    HexArgumentIsLight(fields, 2, "group");
    HexArgumentIsLight(fields, 3, "target");
    HexArgumentIsLight(fields, 4, "text");
    HexArgumentIsLight(fields, 4, "target");
  }

  lemma NameIsLight(fields: Fields)
    ensures Light(ReadSelector(fields)) && Light(ReadRename(fields))
      && Light(ReadAway(fields)) && Light(ReadDisconnect(fields))
  {
    hide HexArgument;
    HexArgumentIsLight(fields, 2, "selector");
    HexArgumentIsLight(fields, 2, "reason");
    HexArgumentIsLight(fields, 3, "name");
    HexArgumentIsLight(fields, 3, "message");
  }

  lemma RefusalsAreCarried(fields: Fields)
    ensures Light(DecodeCall(fields))
  {
    hide ReadConnect, ReadMessage, ReadGroup, ReadSelector, ReadRename, ReadAway, ReadDisconnect, ParseU64, CommandOf,
         Signed;
    ConnectIsLight(fields);
    MessageIsLight(fields);
    NameIsLight(fields);
  }

  /** Whatever line arrives, well-formed or not, it gets one complete reply: a line that is not
      a call is answered with its error, which the client reads back whole, and the backend is
      left alone. */
  lemma EveryLineIsAnswered<S>(backend: Backend<S>, s: S, input: bytes)
    requires ReadLine(input).Line? && DecodeCall(SplitFields(ReadLine(input).text)).Err?
    ensures Answer(backend, s, input).0 == s
    ensures ReadResponse(Answer(backend, s, input).1) == Err(DecodeCall(SplitFields(ReadLine(input).text)).error)
  {
    hide DecodeCall, WriteLines, ReadResponse, SplitFields, ReadLine, EncodeError, DecodeError;
    var fields := SplitFields(ReadLine(input).text);
    var e := DecodeCall(fields).error;
    RefusalsAreCarried(fields);
    assert [EncodeError(e), [END]] == [EncodeError(e)] + [[END]];
    ErrorResponse(e, [[END]]);
    ErrorRoundTrip(e);
    NamedExitsSurvive(e);
  }

  // ---------- Exactly when nothing is lost ----------

  /** Calls that arrive as they were made. */
  predicate Intact(call: Call) {
    && (call.ApplyGroup? ==> (call.client.Some? <==> call.databaseId.None?))
    && (call.NextEvent? ==> call.timeout >= 0)
  }

  lemma IntactCallsArrive(call: Call)
    ensures Delivered(call) == Ok(call) <==> Intact(call)
  {
  }

  predicate RealChannel(channel: Option<u64>) {
    channel != Some(0)
  }

  /** Results that come back as they were returned. */
  predicate Unchanged(call: Call, r: Result<Reply>) {
    match r
    case Err(e) => e.details == map[] && PlainExit(e.exit) && !(call.GetPluginInfo? && e.code == CONNECT_FAILED)
    case Ok(reply) =>
      match reply
      case ServerReply(server) => RealChannel(server.current)
      case ChannelsReply(channels) => forall i :: 0 <= i < |channels| ==> RealChannel(channels[i].parent)
      case ClientsReply(clients) => forall i :: 0 <= i < |clients| ==> RealChannel(clients[i].channel)
      case ChannelReply(channel) => RealChannel(channel.parent)
      case ClientReply(client) => RealChannel(client.channel)
      case ApplicationReply(a) => a.client.Some? ==> RealChannel(a.client.value.channel)
      case EventReply(event) => event.Some? ==> event.value.at >= 0 && event.value.at % NANOS == 0
      case _ => true
  }

  lemma WholeMillis(at: int)
    ensures Millis(at) >= 0 && Millis(at) * NANOS == at <==> at >= 0 && at % NANOS == 0
  {
  }

  lemma SeenAsReturned(call: Call, r: Result<Reply>, paths: Paths)
    ensures Seen(call, r, paths) == r <==> Unchanged(call, r)
  {
    hide Unavailable, Millis, WireError, PlainExit;
    if r.Err? {
      PlainExitsSurvive(r.error);
    } else {
      var reply := r.value;
      match reply
      case EventReply(event) => if event.Some? { WholeMillis(event.value.at); }
      case ChannelsReply(channels) =>
        var seen := Each(WiredChannel, channels);
        if seen == channels {
          forall i | 0 <= i < |channels| ensures RealChannel(channels[i].parent) { assert seen[i] == channels[i]; }
        }
      case ClientsReply(clients) =>
        var seen := Each(WiredClient, clients);
        if seen == clients {
          forall i | 0 <= i < |clients| ensures RealChannel(clients[i].channel) { assert seen[i] == clients[i]; }
        }
      case _ =>
    }
  }

  /** Transparency, with its exact condition: a call that arrives intact is indistinguishable
      from a local one, in result and in effect, exactly when its result survives the wire. */
  lemma TransparentExactlyWhen<S>(backend: Backend<S>, s: S, call: Call, paths: Paths)
    requires Intact(call) && Carries(call, backend(s, call).1)
    ensures Remote(backend, s, call, paths).0 == backend(s, call).0
    ensures Remote(backend, s, call, paths) == backend(s, call) <==> Unchanged(call, backend(s, call).1)
  {
    hide Remote, Seen, Unchanged, Carries;
    IntactCallsArrive(call);
    RemoteRefinesLocal(backend, s, call, paths);
    SeenAsReturned(call, backend(s, call).1, paths);
  }

  function BrokenError(call: Call): Error {
    if call.NextEvent? then BridgeError("invalid_argument", INVALID_ARGUMENT + TIMEOUT_NAME, Usage)
    else BAD_DATABASE_ID
  }

  /** A call that does not arrive intact is either refused, and the backend is left alone, or
      is a server-group request with two targets that loses the database id. */
  lemma BrokenCalls<S>(backend: Backend<S>, s: S, call: Call, paths: Paths)
    requires !Intact(call)
    requires Delivered(call).Ok? ==> Carries(call, backend(s, Delivered(call).value).1)
    ensures Remote(backend, s, call, paths) ==
            if call.ApplyGroup? && call.client.Some? then
              var (t, r) := backend(s, call.(databaseId := None));
              (t, Seen(call, r, paths))
            else (s, Err(BrokenError(call)))
  {
    hide Remote, Carries;
    RemoteRefinesLocal(backend, s, call, paths);
  }

  // ---------- When the connection fails ----------

  /** What the connection does with one exchange. */
  datatype Trip =
    | Whole
    | Unreached(error: Error)                           // no socket, or no connection
    | Unsent(written: nat, error: Error)                // a write fails before the last byte
    | CutShort(received: nat, failure: Option<Error>)   // the reply ends: closed, or a read fails

  function Prefix(s: bytes, n: nat): bytes {
    if n < |s| then s[..n] else s
  }

  /** Whether the reply ends before its first line or later, a failed read says why itself. */
  function ReadCut(input: bytes, failure: Option<Error>): Result<Response> {
    if failure.Some? then ReadReply(input, failure.value, failure.value) else ReadResponse(input)
  }

  /** exchange, after the check that the backend is initialised. */
  ghost function Attempt<S>(backend: Backend<S>, s: S, request: Fields, trip: Trip): (S, Result<Response>) {
    var line := JoinFields(request);
    match trip
    case Whole => var (t, output) := Answer(backend, s, line); (t, ReadResponse(output))
    case Unreached(e) => (s, Err(e))
    case Unsent(n, e) => (Answer(backend, s, Prefix(line[..|line| - 1], n)).0, Err(e))
    case CutShort(n, failure) =>
      var (t, output) := Answer(backend, s, line);
      (t, ReadCut(Prefix(output, n), failure))
  }

  ghost function RemoteOver<S>(backend: Backend<S>, s: S, call: Call, paths: Paths, trip: Trip): (S, Result<Reply>) {
    var (t, response) := Attempt(backend, s, Request(call), trip);
    (t, Conclude(call, paths, response))
  }

  /** An error that the connection itself explains. */
  predicate TripError(trip: Trip, e: Error) {
    match trip
    case Whole => false
    case Unreached(error) => e == error
    case Unsent(_, error) => e == error
    case CutShort(_, failure) => if failure.Some? then e == failure.value else e == READ_FAILED || e == ENDED_EARLY
  }

  /** A request without its newline is no request. */
  lemma PartialLineIsIgnored<S>(backend: Backend<S>, s: S, call: Call, n: nat)
    ensures var line := JoinFields(Request(call));
            Answer(backend, s, Prefix(line[..|line| - 1], n)) == (s, [])
  {
    hide Request, DecodeCall, ReplyLines;
    RequestIsPrintable(call);
    PrintableHasOneNewline(Request(call));
    var line := JoinFields(Request(call));
    ReadLineSplits(Prefix(line[..|line| - 1], n));
  }

  lemma PrintableHasOneNewline(fields: Fields)
    requires Printable(fields)
    ensures var line := JoinFields(fields); '\n' !in line[..|line| - 1]
  {
    LineRoundTrip(fields, []);
    var line := JoinFields(fields);
    assert line + [] == line;
    assert line[..|line| - 1] == Join(fields, '\t');
    ReadLineSplits(line);
  }

  /** At most once, whatever the connection does: either the call is made whole, result and all,
      or the caller gets an error of the connection and the backend was called once, with the
      arguments sent, or not at all. It was not called if the request did not leave. */
  lemma AtMostOnce<S>(backend: Backend<S>, s: S, call: Call, paths: Paths, trip: Trip)
    ensures var (t, r) := RemoteOver(backend, s, call, paths, trip);
            && ((t, r) == Remote(backend, s, call, paths) ||
                exists e :: TripError(trip, e) && r == Conclude(call, paths, Err(e)))
            && (t == s || (Delivered(call).Ok? && t == backend(s, Delivered(call).value).0))
            && (trip.Unreached? || trip.Unsent? ==> t == s)
            && (trip.CutShort? ==> t == Remote(backend, s, call, paths).0)
  {
    hide Answer, Request, JoinFields, ReadReply, Conclude, Delivered;
    ServerGetsCall(backend, s, call);
    var output := Answer(backend, s, JoinFields(Request(call))).1;
    match trip
    case Whole =>
    case Unreached(e) => assert TripError(trip, e);
    case Unsent(n, e) =>
      PartialLineIsIgnored(backend, s, call, n);
      assert TripError(trip, e);
    case CutShort(n, failure) =>
      var e := if failure.Some? then failure.value else READ_FAILED;
      assert TripError(trip, e) && (failure.None? ==> TripError(trip, ENDED_EARLY));
      assert output[..|output|] == output;
      CutReply(output, if n < |output| then n else |output|, e, if failure.Some? then e else ENDED_EARLY);
  }

  /** A plugin that cannot be reached is described rather than reported as an error; every other
      operation passes the error on, and so does this one any other error. */
  lemma UnreachablePlugin<S>(backend: Backend<S>, s: S, call: Call, paths: Paths, e: Error)
    ensures var (t, r) := RemoteOver(backend, s, call, paths, Unreached(e));
            t == s &&
            if call.GetPluginInfo? && e.code == "socket_connect_failed" then
              r.Ok? && r.value.InfoReply? &&
              var info := r.value.info;
              && !info.available && info.version == "unavailable" && info.name == "ts3cli-plugin"
              && info.backend == "plugin" && info.transport == "unix-socket" && info.socketPath == paths.control
              && info.mediaTransport == "unix-stream/frame-v1" && info.mediaSocketPath == paths.media
              && info.mediaFormat == "pcm_s16le @48000 Hz mono" && info.note == e.message
            else r == Err(e)
  {
    hide Request, DecodePayload;
  }

  /** A reply of another type than the operation has is refused, and named. */
  lemma WrongTypeIsRefused(call: Call, paths: Paths, response: Response)
    requires response.kind != Expected(call)
    ensures Conclude(call, paths, Ok(response)) ==
            Err(MakeError("bridge", "unexpected_response",
                          "bridge returned " + response.kind + " for " + Expected(call), Internal))
  {
  }

  // ---------- Whole sessions ----------

  /** One call of a session and what the connection does with it. */
  datatype Attempted = Attempted(call: Call, trip: Trip)

  /** The request reaches the server. */
  predicate Arrives(trip: Trip) {
    trip.Whole? || trip.CutShort?
  }

  /** The same attempt without a socket between: the call as the server understands it, or its
      refusal; nothing if the request never arrives. */
  function Locally<S>(backend: Backend<S>, s: S, a: Attempted): (S, Result<Reply>) {
    if !Arrives(a.trip) then (s, Err(a.trip.error))
    else
      match Delivered(a.call)
      case Err(e) => (s, Err(e))
      case Ok(c) => backend(s, c)
  }

  /** What the caller gets: the local result seen through the wire, or an error that the
      connection itself explains. */
  ghost predicate Faithful(a: Attempted, paths: Paths, local: Result<Reply>, remote: Result<Reply>) {
    || (Arrives(a.trip) && remote == Seen(a.call, local, paths))
    || exists e :: TripError(a.trip, e) && remote == Conclude(a.call, paths, Err(e))
  }

  function LocalSession<S>(backend: Backend<S>, s: S, session: seq<Attempted>): (S, seq<Result<Reply>>)
    decreases |session|
  {
    if session == [] then (s, [])
    else
      var (t, r) := Locally(backend, s, session[0]);
      var (u, rest) := LocalSession(backend, t, session[1..]);
      (u, [r] + rest)
  }

  ghost function RemoteSession<S>(backend: Backend<S>, s: S, session: seq<Attempted>, paths: Paths)
    : (S, seq<Result<Reply>>)
    decreases |session|
  {
    if session == [] then (s, [])
    else
      var (t, r) := RemoteOver(backend, s, session[0].call, paths, session[0].trip);
      var (u, rest) := RemoteSession(backend, t, session[1..], paths);
      (u, [r] + rest)
  }

  /** Every call that reached the server gave a result that a backend can return. */
  predicate AllCarried(session: seq<Attempted>, results: seq<Result<Reply>>) {
    |session| == |results| &&
    forall i :: 0 <= i < |session| ==> Arrives(session[i].trip) ==> Carries(session[i].call, results[i])
  }

  lemma AttemptRefines<S>(backend: Backend<S>, s: S, a: Attempted, paths: Paths)
    requires Arrives(a.trip) ==> Carries(a.call, Locally(backend, s, a).1)
    ensures RemoteOver(backend, s, a.call, paths, a.trip).0 == Locally(backend, s, a).0
    ensures Faithful(a, paths, Locally(backend, s, a).1, RemoteOver(backend, s, a.call, paths, a.trip).1)
  {
    hide RemoteOver, Remote, Seen, Carries, Delivered, Conclude, TripError;
    AtMostOnce(backend, s, a.call, paths, a.trip);
    if Arrives(a.trip) {
      RemoteRefinesLocal(backend, s, a.call, paths);
      WholeIsRemote(backend, s, a.call, paths);
    } else {
      NothingArrives(backend, s, a, paths);
    }
  }

  lemma WholeIsRemote<S>(backend: Backend<S>, s: S, call: Call, paths: Paths)
    ensures RemoteOver(backend, s, call, paths, Whole) == Remote(backend, s, call, paths)
  {
    hide Answer, Request, ReadReply, Conclude;
  }

  lemma NothingArrives<S>(backend: Backend<S>, s: S, a: Attempted, paths: Paths)
    requires !Arrives(a.trip)
    ensures TripError(a.trip, a.trip.error)
    ensures RemoteOver(backend, s, a.call, paths, a.trip).1 == Conclude(a.call, paths, Err(a.trip.error))
  {
    hide Answer, Request, JoinFields, Conclude;
  }

  /** A whole session, of any calls over any connections, leaves the backend exactly as the local
      session of the attempts that arrived does, and each result is the local one seen through
      the wire or an error of that attempt's connection. */
  lemma {:induction false} SessionRefines<S>(backend: Backend<S>, s: S, session: seq<Attempted>, paths: Paths)
    requires AllCarried(session, LocalSession(backend, s, session).1)
    ensures RemoteSession(backend, s, session, paths).0 == LocalSession(backend, s, session).0
    ensures |RemoteSession(backend, s, session, paths).1| == |session|
    ensures forall i :: 0 <= i < |session| ==>
              Faithful(session[i], paths, LocalSession(backend, s, session).1[i],
                       RemoteSession(backend, s, session, paths).1[i])
    decreases |session|
  {
    if session != [] {
      hide RemoteOver, Locally, Faithful, Carries, LocalSession, RemoteSession;
      LocalStep(backend, s, session);
      RemoteStep(backend, s, session, paths);
      var (t, r) := Locally(backend, s, session[0]);
      var local, rest := LocalSession(backend, s, session).1, LocalSession(backend, t, session[1..]).1;
      assert local[0] == r;
      CarriedTail(session, local);
      assert local[1..] == rest;
      AttemptRefines(backend, s, session[0], paths);
      SessionRefines(backend, t, session[1..], paths);
    } else {
      NoCalls(backend, s, session, paths);
    }
  }

  lemma NoCalls<S>(backend: Backend<S>, s: S, session: seq<Attempted>, paths: Paths)
    requires session == []
    ensures RemoteSession(backend, s, session, paths) == (s, []) == LocalSession(backend, s, session)
  {
  }

  lemma LocalStep<S>(backend: Backend<S>, s: S, session: seq<Attempted>)
    requires session != []
    ensures var (t, r) := Locally(backend, s, session[0]);
            var (u, rest) := LocalSession(backend, t, session[1..]);
            LocalSession(backend, s, session) == (u, [r] + rest)
  {
  }

  lemma RemoteStep<S>(backend: Backend<S>, s: S, session: seq<Attempted>, paths: Paths)
    requires session != []
    ensures var (t, r) := RemoteOver(backend, s, session[0].call, paths, session[0].trip);
            var (u, rest) := RemoteSession(backend, t, session[1..], paths);
            RemoteSession(backend, s, session, paths) == (u, [r] + rest)
  {
    hide RemoteOver;
  }

  lemma CarriedTail(session: seq<Attempted>, results: seq<Result<Reply>>)
    requires session != [] && AllCarried(session, results)
    ensures Arrives(session[0].trip) ==> Carries(session[0].call, results[0])
    ensures AllCarried(session[1..], results[1..])
  {
    hide Carries;
  }

  // ---------- The two classes ----------

  const NOT_INITIALIZED: Error := BridgeError("not_initialized", "plugin backend is not initialized", Internal)

  class SocketBridgeServer<S> {
    const backend: Backend<S>
    var state: S

    constructor (served: Backend<S>, initial: S)
      ensures backend == served && state == initial
    {
      backend, state := served, initial;
    }

    /** Several lines, one write_line after another, behind those already written. */
    static method WriteEach(start: bytes, ghost before: seq<Fields>, lines: seq<Fields>) returns (output: bytes)
      requires start == WriteLines(before)
      ensures output == WriteLines(before + lines)
    {
      hide WriteLines;
      output := start;
      assert before + lines[..0] == before;
      for i := 0 to |lines|
        invariant output == WriteLines(before + lines[..i])
      {
        WriteLinesAppend(before + lines[..i], lines[i]);
        assert before + lines[..i + 1] == before + lines[..i] + [lines[i]];
        var line := JoinFieldsText(lines[i]);
        output := output + line;
      }
      assert lines[..|lines|] == lines;
    }

    /** encode_channels and encode_clients */
    static method EncodeLines<T>(encode: T -> Fields, records: seq<T>) returns (lines: seq<Fields>)
      ensures lines == Each(encode, records)
    {
      lines := [];
      for i := 0 to |records|
        invariant |lines| == i && forall j :: 0 <= j < i ==> lines[j] == encode(records[j])
      {
        lines := lines + [encode(records[i])];
      }
    }

    static method EncodeReply(reply: Reply) returns (lines: seq<Fields>)
      ensures lines == Payload(reply)
    {
      hide EncodePluginInfo, EncodeState, EncodeServer, EncodeChannel, EncodeClient, EncodeApplication, SortedKeys;
      match reply
      case Done => lines := [];
      case InfoReply(info) => lines := EncodePluginInfo(info);
      case StateReply(state) => lines := EncodeState(state);
      case ServerReply(server) => lines := EncodeServer(server);
      case ChannelsReply(channels) => lines := EncodeLines(EncodeChannel, channels);
      case ClientsReply(clients) => lines := EncodeLines(EncodeClient, clients);
      case ChannelReply(channel) => lines := [EncodeChannel(channel)];
      case ClientReply(client) => lines := [EncodeClient(client)];
      case ApplicationReply(application) => lines := EncodeApplication(application);
      case EventReply(event) =>
        if event.None? {
          lines := [[NO_EVENT]];
        } else {
          var line := EncodeEventLine(event.value);
          lines := [line];
        }
    }

    /** send_error */
    static method SendError(e: Error) returns (output: bytes)
      ensures output == WriteLines(ReplyLines(Err(e)))
    {
      hide EncodeError;
      var lines := [EncodeError(e), [END]];
      assert [] + lines == lines;
      output := WriteEach([], [], lines);
    }

    /** send_ok */
    static method SendOk(reply: Reply) returns (output: bytes)
      ensures output == WriteLines(ReplyLines(Ok(reply)))
    {
      hide Payload;
      var header := [OK, ReplyType(reply)];
      var payload := EncodeReply(reply);
      assert [] + [header] == [header];
      output := WriteEach([], [], [header]);
      output := WriteEach(output, [header], payload);
      output := WriteEach(output, [header] + payload, [[END]]);
    }

    /** handle_client */
    method HandleClient(input: bytes) returns (output: bytes)
      modifies this`state
      ensures (state, output) == Answer(backend, old(state), input)
    {
      hide DecodeCall, ReplyLines, WriteLines;
      var line := ReadLineLoop(input);
      if line.NoLine? {
        return [];
      }
      var fields := SplitText(line.text, '\t');
      var call := DecodeCall(fields);
      if call.Err? {
        output := SendError(call.error);
        return;
      }
      var (next, result) := backend(state, call.value);
      state := next;
      if result.Err? {
        output := SendError(result.error);
      } else {
        output := SendOk(result.value);
      }
    }
  }

  class SocketBackend {
    var initialized: bool
    var paths: Paths

    constructor ()
      ensures !initialized
    {
      initialized := false;
      paths := Paths([], []);
    }

    method Initialize(resolved: Paths)
      modifies this
      ensures initialized && paths == resolved
    {
      paths := resolved;
      initialized := true;
    }

    method Shutdown()
      modifies this`initialized
      ensures !initialized
    {
      initialized := false;
    }

    /** exchange: one connection carries one request and its reply, or fails on the way. */
    method Exchange<S>(server: SocketBridgeServer<S>, request: Fields, trip: Trip)
      returns (response: Result<Response>)
      modifies server`state
      ensures if initialized then
                (server.state, response) == Attempt(server.backend, old(server.state), request, trip)
              else server.state == old(server.state) && response == Err(NOT_INITIALIZED)
    {
      if !initialized {
        return Err(NOT_INITIALIZED);
      }
      hide Answer, ReadReply;
      if trip.Unreached? {
        return Err(trip.error);
      }
      var line := JoinFieldsText(request);
      if trip.Unsent? {
        var unheard := server.HandleClient(Prefix(line[..|line| - 1], trip.written));
        return Err(trip.error);
      }
      var output := server.HandleClient(line);
      if trip.Whole? {
        response := ReceiveResponse(output, READ_FAILED, ENDED_EARLY);
      } else if trip.failure.None? {
        response := ReceiveResponse(Prefix(output, trip.received), READ_FAILED, ENDED_EARLY);
      } else {
        response := ReceiveResponse(Prefix(output, trip.received), trip.failure.value, trip.failure.value);
      }
    }

    static method ReceiveResponse(input: bytes, none: Error, early: Error) returns (response: Result<Response>)
      ensures response == ReadReply(input, none, early)
    {
      hide ReadLine, Split, DecodeError;
      var line := ReadLineLoop(input);
      if line.NoLine? {
        return Err(none);
      }
      var header := SplitText(line.text, '\t');
      if header[0] == ERROR_TAG {
        return Err(DecodeError(header));
      }
      if |header| != 2 || header[0] != OK {
        return Err(BAD_HEADER);
      }
      var lines := ReceivePayload(line.rest);
      if lines.None? {
        return Err(early);
      }
      return Ok(Response(header[1], lines.value));
    }

    static method ReceivePayload(input: bytes) returns (lines: Option<seq<Fields>>)
      ensures lines == ReadPayload(input)
    {
      var payload: seq<Fields> := [];
      var rest := input;
      ghost var whole := ReadPayload(rest);
      if whole.Some? {
        assert payload + whole.value == whole.value;
      }
      while true
        invariant ReadPayload(input) ==
                  if ReadPayload(rest).None? then None else Some(payload + ReadPayload(rest).value)
        decreases |rest|
      {
        hide ReadLine, Split;
        ReadLineShrinks(rest);
        var line := ReadLineLoop(rest);
        if line.NoLine? {
          return None;
        }
        var fields := SplitText(line.text, '\t');
        if fields == [END] {
          assert payload + [] == payload;
          return Some(payload);
        }
        ghost var more := ReadPayload(line.rest);
        if more.Some? {
          assert payload + ([fields] + more.value) == payload + [fields] + more.value;
        }
        payload := payload + [fields];
        rest := line.rest;
      }
    }

    /** Any of the operations: check, exchange, decode. */
    method Perform<S>(server: SocketBridgeServer<S>, call: Call, trip: Trip) returns (result: Result<Reply>)
      modifies server`state
      ensures if initialized then
                (server.state, result) == RemoteOver(server.backend, old(server.state), call, paths, trip)
              else server.state == old(server.state) && result == Err(NOT_INITIALIZED)
    {
      hide Attempt, Request, DecodePayload, Unavailable;
      var response := Exchange(server, Request(call), trip);
      if !initialized {
        assert !(call.GetPluginInfo? && NOT_INITIALIZED.code == CONNECT_FAILED) by { CodesDiffer(); }
      }
      result := Conclude(call, paths, response);
    }

    static lemma CodesDiffer()
      ensures NOT_INITIALIZED.code != CONNECT_FAILED
    {
      assert |NOT_INITIALIZED.code| != |CONNECT_FAILED|;
    }
  }
}
