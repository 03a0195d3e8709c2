/** Calls of the control protocol: how socket_backend.cpp writes a request, how socket_server.cpp
    decodes it, and how a reply comes back as lines up to "end". */
module Control {
  import opened Bytes
  import opened Wire
  import opened Records

  type i64 = n: int | -0x8000_0000_0000_0000 <= n < 0x8000_0000_0000_0000

  datatype Audience = OneClient | WholeChannel

  datatype ConnectRequest = ConnectRequest(
    host: bytes, port: u16, nickname: bytes, identity: bytes, serverPassword: bytes, channelPassword: bytes,
    defaultChannel: bytes, profile: bytes)

  /** The operations of sdk::Backend that go over the socket. */
  datatype Call =
    | GetPluginInfo
    | Connect(request: ConnectRequest)
    | Disconnect(reason: bytes)
    | GetState
    | GetServer
    | ListChannels
    | ListClients
    | GetChannel(selector: bytes)
    | GetClient(selector: bytes)
    | JoinChannel(selector: bytes)
    | RenameChannel(selector: bytes, name: bytes)
    | SetMuted(on: bool)
    | SetSpeakersMuted(on: bool)
    | SetAway(on: bool, message: bytes)
    | SendMessage(audience: Audience, target: bytes, text: bytes)
    | ApplyGroup(group: bytes, client: Option<bytes>, databaseId: Option<u64>)
    | NextEvent(timeout: i64)

  datatype Reply =
    | Done
    | InfoReply(info: PluginInfo)
    | StateReply(state: ConnectionState)
    | ServerReply(server: ServerInfo)
    | ChannelsReply(channels: seq<Channel>)
    | ClientsReply(clients: seq<Client>)
    | ChannelReply(channel: Channel)
    | ClientReply(client: Client)
    | ApplicationReply(application: Application)
    | EventReply(event: Option<Event>)

  /** The result type each operation has. */
  predicate Suits(call: Call, reply: Reply) {
    match call
    case GetPluginInfo => reply.InfoReply?
    case GetState => reply.StateReply?
    case GetServer => reply.ServerReply?
    case ListChannels => reply.ChannelsReply?
    case ListClients => reply.ClientsReply?
    case GetChannel(_) => reply.ChannelReply?
    case RenameChannel(_, _) => reply.ChannelReply?
    case GetClient(_) => reply.ClientReply?
    case ApplyGroup(_, _, _) => reply.ApplicationReply?
    case NextEvent(_) => reply.EventReply?
    case Connect(_) => reply.Done?
    case Disconnect(_) => reply.Done?
    case JoinChannel(_) => reply.Done?
    case SetMuted(_) => reply.Done?
    case SetSpeakersMuted(_) => reply.Done?
    case SetAway(_, _) => reply.Done?
    case SendMessage(_, _, _) => reply.Done?
  }

  // ---------- Command words ----------

  const MAGIC: bytes := "tscli1"

  datatype Command =
    | InfoCommand | ConnectCommand | DisconnectCommand | StateCommand | ServerCommand | ChannelsCommand
    | ClientsCommand | ChannelCommand | ClientCommand | JoinCommand | RenameCommand | MutedCommand
    | SpeakersCommand | AwayCommand | MessageCommand | GroupCommand | EventCommand

  const INFO: bytes := "plugin_info"
  const CONNECT: bytes := "connect"
  const DISCONNECT: bytes := "disconnect"
  const STATE: bytes := "connection_state"
  const SERVER: bytes := "server_info"
  const LIST_CHANNELS: bytes := "list_channels"
  const LIST_CLIENTS: bytes := "list_clients"
  const GET_CHANNEL: bytes := "get_channel"
  const GET_CLIENT: bytes := "get_client"
  const JOIN: bytes := "join_channel"
  const RENAME: bytes := "rename_channel"
  const MUTED: bytes := "set_self_muted"
  const SPEAKERS: bytes := "set_self_speakers_muted"
  const AWAY: bytes := "set_self_away"
  const MESSAGE: bytes := "send_message"
  const GROUP: bytes := "apply_server_group"
  const EVENT: bytes := "next_event"

  function WordOf(command: Command): bytes {
    match command
    case InfoCommand => INFO
    case ConnectCommand => CONNECT
    case DisconnectCommand => DISCONNECT
    case StateCommand => STATE
    case ServerCommand => SERVER
    case ChannelsCommand => LIST_CHANNELS
    case ClientsCommand => LIST_CLIENTS
    case ChannelCommand => GET_CHANNEL
    case ClientCommand => GET_CLIENT
    case JoinCommand => JOIN
    case RenameCommand => RENAME
    case MutedCommand => MUTED
    case SpeakersCommand => SPEAKERS
    case AwayCommand => AWAY
    case MessageCommand => MESSAGE
    case GroupCommand => GROUP
    case EventCommand => EVENT
  }

  /** The chain of comparisons in handle_client. */
  function CommandOf(word: bytes): Option<Command> {
    if word == INFO then Some(InfoCommand)
    else if word == CONNECT then Some(ConnectCommand)
    else if word == DISCONNECT then Some(DisconnectCommand)
    else if word == STATE then Some(StateCommand)
    else if word == SERVER then Some(ServerCommand)
    else if word == LIST_CHANNELS then Some(ChannelsCommand)
    else if word == GET_CHANNEL then Some(ChannelCommand)
    else if word == JOIN then Some(JoinCommand)
    else if word == RENAME then Some(RenameCommand)
    else if word == MUTED then Some(MutedCommand)
    else if word == SPEAKERS then Some(SpeakersCommand)
    else if word == AWAY then Some(AwayCommand)
    else if word == LIST_CLIENTS then Some(ClientsCommand)
    else if word == GET_CLIENT then Some(ClientCommand)
    else if word == MESSAGE then Some(MessageCommand)
    else if word == GROUP then Some(GroupCommand)
    else if word == EVENT then Some(EventCommand)
    else None
  }

  lemma WordShapes()
    ensures |INFO| == |SERVER| == |GET_CHANNEL| == 11 && INFO[0] == 'p' && SERVER[0] == 's' && GET_CHANNEL[0] == 'g'
    ensures |CONNECT| == 7 && |STATE| == 16 && |SPEAKERS| == 23 && |GROUP| == 18
    ensures |DISCONNECT| == |GET_CLIENT| == |EVENT| == 10
    ensures DISCONNECT[0] == 'd' && GET_CLIENT[0] == 'g' && EVENT[0] == 'n'
    ensures |LIST_CHANNELS| == |AWAY| == 13 && LIST_CHANNELS[0] == 'l' && AWAY[0] == 's'
    ensures |JOIN| == |LIST_CLIENTS| == |MESSAGE| == 12 && JOIN[0] == 'j' && LIST_CLIENTS[0] == 'l' && MESSAGE[0] == 's'
    ensures |RENAME| == |MUTED| == 14 && RENAME[0] == 'r' && MUTED[0] == 's'
  {
  }

  lemma CommandWords(command: Command)
    ensures CommandOf(WordOf(command)) == Some(command)
  {
    WordShapes();
  }

  lemma QueryWordsArePlain()
    ensures Plain(MAGIC) && Plain(INFO) && Plain(CONNECT) && Plain(DISCONNECT) && Plain(STATE) && Plain(SERVER)
    ensures Plain(LIST_CHANNELS) && Plain(LIST_CLIENTS) && Plain(GET_CHANNEL) && Plain(GET_CLIENT)
  {
  }

  lemma ActionWordsArePlain()
    ensures Plain(JOIN) && Plain(RENAME) && Plain(MUTED) && Plain(SPEAKERS) && Plain(AWAY) && Plain(MESSAGE)
    ensures Plain(GROUP) && Plain(EVENT)
  {
  }

  lemma WordsArePlain(command: Command)
    ensures Plain(WordOf(command)) && Plain(MAGIC)
  {
    hide Plain;
    QueryWordsArePlain();
    ActionWordsArePlain();
  }

  // ---------- Requests ----------

  function CommandFor(call: Call): Command {
    match call
    case GetPluginInfo => InfoCommand
    case Connect(_) => ConnectCommand
    case Disconnect(_) => DisconnectCommand
    case GetState => StateCommand
    case GetServer => ServerCommand
    case ListChannels => ChannelsCommand
    case ListClients => ClientsCommand
    case GetChannel(_) => ChannelCommand
    case GetClient(_) => ClientCommand
    case JoinChannel(_) => JoinCommand
    case RenameChannel(_, _) => RenameCommand
    case SetMuted(_) => MutedCommand
    case SetSpeakersMuted(_) => SpeakersCommand
    case SetAway(_, _) => AwayCommand
    case SendMessage(_, _, _) => MessageCommand
    case ApplyGroup(_, _, _) => GroupCommand
    case NextEvent(_) => EventCommand
  }

  const CLIENT_WORD: bytes := "client"
  const CHANNEL_WORD: bytes := "channel"
  const DATABASE_WORD: bytes := "client_database_id"

  function AudienceWord(audience: Audience): bytes {
    if audience.OneClient? then CLIENT_WORD else CHANNEL_WORD
  }

  /** A client target wins over a database id; without either the target is empty text. */
  function GroupTarget(client: Option<bytes>, databaseId: Option<u64>): bytes {
    if client.Some? then client.value else if databaseId.Some? then Decimal(databaseId.value) else []
  }

  function Arguments(call: Call): seq<Item> {
    match call
    case Connect(r) =>
      [Hex(r.host), Num(r.port), Hex(r.nickname), Hex(r.identity), Hex(r.serverPassword), Hex(r.channelPassword),
       Hex(r.defaultChannel), Hex(r.profile)]
    case Disconnect(reason) => [Hex(reason)]
    case GetChannel(selector) => [Hex(selector)]
    case GetClient(selector) => [Hex(selector)]
    case JoinChannel(selector) => [Hex(selector)]
    case RenameChannel(selector, name) => [Hex(selector), Hex(name)]
    case SetMuted(on) => [Flag(on)]
    case SetSpeakersMuted(on) => [Flag(on)]
    case SetAway(on, message) => [Flag(on), Hex(message)]
    case SendMessage(audience, target, text) => [Word(AudienceWord(audience)), Hex(target), Hex(text)]
    case ApplyGroup(group, client, databaseId) =>
      [Hex(group), Word(if client.Some? then CLIENT_WORD else DATABASE_WORD), Hex(GroupTarget(client, databaseId))]
    case NextEvent(timeout) => [Int(timeout)]
    case _ => []
  }

  function RequestItems(call: Call): seq<Item> {
    [Word(MAGIC), Word(WordOf(CommandFor(call)))] + Arguments(call)
  }

  function Request(call: Call): Fields {
    Texts(RequestItems(call))
  }

  // ---------- Decoding a request ----------

  function BridgeError(code: bytes, message: bytes, exit: ExitCode): Error {
    MakeError("bridge", code, message, exit)
  }

  const MISSING_ARGUMENT: bytes := "missing bridge argument: "
  const INVALID_ARGUMENT: bytes := "invalid bridge argument: "
  const BAD_REQUEST: bytes := "invalid_request"

  function UsageError(message: bytes): Error {
    BridgeError(BAD_REQUEST, message, Usage)
  }

  const INVALID_REQUEST: Error := UsageError("invalid bridge request")
  const BAD_CONNECT: Error := UsageError("connect expects 8 arguments")
  const BAD_RENAME: Error := UsageError("rename_channel expects 2 arguments")
  const BAD_MUTED: Error := UsageError("set_self_muted expects a boolean argument")
  const BAD_SPEAKERS: Error := UsageError("set_self_speakers_muted " + "expects a boolean argument")
  const BAD_AWAY: Error := UsageError("set_self_away expects a boolean and message")
  const BAD_MESSAGE: Error := UsageError("send_message expects 3 arguments")
  const BAD_GROUP: Error := UsageError("apply_server_group expects 3 arguments")
  const BAD_AUDIENCE: Error := BridgeError("invalid_target", "invalid message target", Usage)
  const BAD_GROUP_TARGET: Error := BridgeError("invalid_target", "invalid server group target", Usage)
  const BAD_DATABASE_ID: Error := BridgeError("invalid_argument", "invalid client database id", Usage)
  const TIMEOUT_NAME: bytes := "timeout_ms"
  const DEFAULT_REASON: bytes := "ts disconnect"

  function HexArgument(fields: Fields, index: nat, name: bytes): Result<bytes> {
    if index >= |fields| then Err(BridgeError("missing_argument", MISSING_ARGUMENT + name, Usage))
    else HexDecode(fields[index])
  }

  function NumberArgument(fields: Fields, index: nat, name: bytes): Result<u64> {
    if index >= |fields| then Err(BridgeError("missing_argument", MISSING_ARGUMENT + name, Usage))
    else
      match ParseU64(fields[index])
      case None => Err(BridgeError("invalid_argument", INVALID_ARGUMENT + name, Usage))
      case Some(n) => Ok(n)
  }

  function ReadConnect(fields: Fields): Result<Call> {
    if |fields| != 10 then Err(BAD_CONNECT)
    else
      var host :- HexArgument(fields, 2, "host");
      var port :- NumberArgument(fields, 3, "port");
      var nickname :- HexArgument(fields, 4, "nickname");
      var identity :- HexArgument(fields, 5, "identity");
      var serverPassword :- HexArgument(fields, 6, "server_password");
      var channelPassword :- HexArgument(fields, 7, "channel_password");
      var defaultChannel :- HexArgument(fields, 8, "default_channel");
      var profile :- HexArgument(fields, 9, "profile_name");
      Ok(Connect(ConnectRequest(host, port % 0x1_0000, nickname, identity, serverPassword, channelPassword,
                                defaultChannel, profile)))
  }

  function ReadDisconnect(fields: Fields): Result<Call> {
    if |fields| <= 2 then Ok(Disconnect(DEFAULT_REASON))
    else
      var reason :- HexArgument(fields, 2, "reason");
      Ok(Disconnect(reason))
  }

  function ReadRename(fields: Fields): Result<Call> {
    if |fields| != 4 then Err(BAD_RENAME)
    else
      var selector :- HexArgument(fields, 2, "selector");
      var name :- HexArgument(fields, 3, "name");
      Ok(RenameChannel(selector, name))
  }

  /** A flag must be exactly "0" or "1". */
  function ReadFlag(fields: Fields, count: nat, error: Error): Result<bool>
    requires count > 2
  {
    if |fields| != count || (fields[2] != "0" && fields[2] != "1") then Err(error) else Ok(fields[2] == "1")
  }

  function ReadAway(fields: Fields): Result<Call> {
    var on :- ReadFlag(fields, 4, BAD_AWAY);
    var message :- HexArgument(fields, 3, "message");
    Ok(SetAway(on, message))
  }

  function ReadMessage(fields: Fields): Result<Call> {
    if |fields| != 5 then Err(BAD_MESSAGE)
    else
      var target :- HexArgument(fields, 3, "target");
      var text :- HexArgument(fields, 4, "text");
      if fields[2] == CLIENT_WORD then Ok(SendMessage(OneClient, target, text))
      else if fields[2] == CHANNEL_WORD then Ok(SendMessage(WholeChannel, target, text))
      else Err(BAD_AUDIENCE)
  }

  function ReadGroup(fields: Fields): Result<Call> {
    if |fields| != 5 then Err(BAD_GROUP)
    else
      var group :- HexArgument(fields, 2, "group");
      var target :- HexArgument(fields, 4, "target");
      if fields[3] == CLIENT_WORD then Ok(ApplyGroup(group, Some(target), None))
      else if fields[3] == DATABASE_WORD then
        match ParseU64(target)
        case None => Err(BAD_DATABASE_ID)
        case Some(id) => Ok(ApplyGroup(group, None, Some(id)))
      else Err(BAD_GROUP_TARGET)
  }

  /** A 64-bit number as a signed count of milliseconds. */
  function Signed(n: u64): i64 {
    if n < 0x8000_0000_0000_0000 then n else n - U64_LIMIT
  }

  function ReadNextEvent(fields: Fields): Result<Call> {
    var timeout :- NumberArgument(fields, 2, TIMEOUT_NAME);
    Ok(NextEvent(Signed(timeout)))
  }

  function ReadSelector(fields: Fields): Result<bytes> {
    HexArgument(fields, 2, "selector")
  }

  function ReadArguments(command: Command, fields: Fields): Result<Call> {
    match command
    case InfoCommand => Ok(GetPluginInfo)
    case ConnectCommand => ReadConnect(fields)
    case DisconnectCommand => ReadDisconnect(fields)
    case StateCommand => Ok(GetState)
    case ServerCommand => Ok(GetServer)
    case ChannelsCommand => Ok(ListChannels)
    case ClientsCommand => Ok(ListClients)
    case ChannelCommand =>
      var selector :- ReadSelector(fields);
      Ok(GetChannel(selector))
    case ClientCommand =>
      var selector :- ReadSelector(fields);
      Ok(GetClient(selector))
    case JoinCommand =>
      var selector :- ReadSelector(fields);
      Ok(JoinChannel(selector))
    case RenameCommand => ReadRename(fields)
    case MutedCommand =>
      var on :- ReadFlag(fields, 3, BAD_MUTED);
      Ok(SetMuted(on))
    case SpeakersCommand =>
      var on :- ReadFlag(fields, 3, BAD_SPEAKERS);
      Ok(SetSpeakersMuted(on))
    case AwayCommand => ReadAway(fields)
    case MessageCommand => ReadMessage(fields)
    case GroupCommand => ReadGroup(fields)
    case EventCommand => ReadNextEvent(fields)
  }

  const UNKNOWN_COMMAND: bytes := "unknown bridge command: "

  function DecodeCall(fields: Fields): Result<Call> {
    if |fields| < 2 || fields[0] != MAGIC then Err(INVALID_REQUEST)
    else
      match CommandOf(fields[1])
      case None => Err(BridgeError("unknown_command", UNKNOWN_COMMAND + fields[1], Usage))
      case Some(command) => ReadArguments(command, fields)
  }

  // ---------- What each line means, whoever wrote it ----------

  predicate Headed(fields: Fields, word: bytes) {
    |fields| >= 2 && fields[0] == "tscli1" && fields[1] == word
  }

  /** The field is there and is hexadecimal. */
  predicate HexAt(fields: Fields, index: nat) {
    index < |fields| && HexDecode(fields[index]).Ok?
  }

  function TextAt(fields: Fields, index: nat): bytes
    requires HexAt(fields, index)
  {
    HexDecode(fields[index]).value
  }

  const COMMANDS: seq<bytes> :=
    ["plugin_info", "connect", "disconnect", "connection_state", "server_info", "list_channels", "list_clients",
     "get_channel", "get_client", "join_channel", "rename_channel", "set_self_muted", "set_self_speakers_muted",
     "set_self_away", "send_message", "apply_server_group", "next_event"]

  /** Lines that are no request, and requests for nothing that is known. */
  lemma UnknownRequests(fields: Fields)
    ensures var r := DecodeCall(fields);
            && (|fields| < 2 || fields[0] != "tscli1" ==> r == Err(INVALID_REQUEST))
            && (|fields| >= 2 && fields[0] == "tscli1" && fields[1] !in COMMANDS ==>
                  r.Err? && r.error.code == "unknown_command" && r.error.exit == Usage &&
                  r.error.message == "unknown bridge command: " + fields[1])
    ensures INVALID_REQUEST.code == "invalid_request" && INVALID_REQUEST.exit == Usage
  {
    hide ReadArguments;
    WordShapes();
  }

  predicate UsageRefusal<T>(r: Result<T>) {
    r.Err? ==> r.error.category == "bridge" && r.error.details == map[] &&
               if r.error.code == "invalid_hex" then r.error.exit == Internal else r.error.exit == Usage
  }

  lemma HexArgumentRefusal(fields: Fields, index: nat, name: bytes)
    ensures UsageRefusal(HexArgument(fields, index, name))
  {
    hide HexDecode;
    if index < |fields| {
      HexDecodeExactly(fields[index], []);
    }
  }

  lemma ConnectRefusals(fields: Fields)
    ensures UsageRefusal(ReadConnect(fields))
  {
    hide HexArgument, ParseU64;
    HexArgumentRefusal(fields, 2, "host");
    HexArgumentRefusal(fields, 4, "nickname");
    HexArgumentRefusal(fields, 5, "identity");
    HexArgumentRefusal(fields, 6, "server_password");
    HexArgumentRefusal(fields, 7, "channel_password");
    HexArgumentRefusal(fields, 8, "default_channel");
    HexArgumentRefusal(fields, 9, "profile_name");
  }

  lemma TargetRefusals(fields: Fields)
    ensures UsageRefusal(ReadMessage(fields)) && UsageRefusal(ReadGroup(fields))
  {
    hide HexArgument, ParseU64;
    HexArgumentRefusal(fields, 3, "target");
    HexArgumentRefusal(fields, 4, "text");
    HexArgumentRefusal(fields, 2, "group");
    HexArgumentRefusal(fields, 4, "target");
  }

  lemma TextRefusals(fields: Fields)
    ensures UsageRefusal(ReadRename(fields)) && UsageRefusal(ReadAway(fields))
    ensures UsageRefusal(ReadDisconnect(fields)) && UsageRefusal(ReadSelector(fields))
  {
    hide HexArgument;
    HexArgumentRefusal(fields, 2, "selector");
    HexArgumentRefusal(fields, 3, "name");
    HexArgumentRefusal(fields, 3, "message");
    HexArgumentRefusal(fields, 2, "reason");
  }

  lemma NumberRefusals(fields: Fields)
    ensures UsageRefusal(ReadNextEvent(fields))
    ensures UsageRefusal(ReadFlag(fields, 3, BAD_MUTED)) && UsageRefusal(ReadFlag(fields, 3, BAD_SPEAKERS))
  {
    hide ParseU64;
  }

  /** Every refusal is the bridge's own, and a usage error unless a text is not hexadecimal. */
  lemma RefusalsAreUsage(fields: Fields)
    ensures UsageRefusal(DecodeCall(fields))
  {
    hide CommandOf, ReadConnect, ReadMessage, ReadGroup, ReadRename, ReadAway, ReadDisconnect, ReadSelector,
      ReadNextEvent, ReadFlag;
    ConnectRefusals(fields);
    TargetRefusals(fields);
    TextRefusals(fields);
    NumberRefusals(fields);
  }

  /** Requests without arguments are accepted with any. */
  lemma QueryMeaning(fields: Fields)
    ensures Headed(fields, "plugin_info") ==> DecodeCall(fields) == Ok(GetPluginInfo)
    ensures Headed(fields, "connection_state") ==> DecodeCall(fields) == Ok(GetState)
    ensures Headed(fields, "server_info") ==> DecodeCall(fields) == Ok(GetServer)
    ensures Headed(fields, "list_channels") ==> DecodeCall(fields) == Ok(ListChannels)
    ensures Headed(fields, "list_clients") ==> DecodeCall(fields) == Ok(ListClients)
  {
    hide ReadConnect, ReadMessage, ReadGroup, ReadRename, ReadAway;
    hide ReadDisconnect, ReadNextEvent, ReadSelector, ReadFlag;
    WordShapes();
  }

  /** A selector is the first argument, and those behind it are not looked at. */
  lemma SelectorMeaning(fields: Fields)
    ensures var r, there := DecodeCall(fields), HexAt(fields, 2);
            && (Headed(fields, "get_channel") && there ==> r == Ok(GetChannel(TextAt(fields, 2))))
            && (Headed(fields, "get_client") && there ==> r == Ok(GetClient(TextAt(fields, 2))))
            && (Headed(fields, "join_channel") && there ==> r == Ok(JoinChannel(TextAt(fields, 2))))
            && (Headed(fields, "get_channel") || Headed(fields, "get_client") || Headed(fields, "join_channel") ==>
                  (!there ==> r.Err? && r.error.code == if |fields| <= 2 then "missing_argument" else "invalid_hex"))
  {
    hide HexDecode, ReadConnect, ReadMessage, ReadGroup, ReadRename, ReadAway, ReadDisconnect, ReadNextEvent, ReadFlag;
    WordShapes();
    if |fields| > 2 { HexErrorCode(fields[2]); }
  }

  lemma HexErrorCode(s: bytes)
    ensures HexDecode(s).Err? ==> HexDecode(s).error.code == "invalid_hex"
  {
    hide HexDecode;
    HexDecodeExactly(s, []);
  }

  /** A disconnect without a reason has the default one. */
  lemma DisconnectMeaning(fields: Fields)
    requires Headed(fields, "disconnect")
    ensures var r := DecodeCall(fields);
            && (|fields| == 2 ==> r == Ok(Disconnect("ts disconnect")))
            && (|fields| > 2 && HexAt(fields, 2) ==> r == Ok(Disconnect(TextAt(fields, 2))))
            && (|fields| > 2 && !HexAt(fields, 2) ==> r.Err? && r.error.code == "invalid_hex")
  {
    hide HexDecode, ReadConnect, ReadMessage, ReadGroup, ReadRename, ReadAway, ReadNextEvent, ReadFlag;
    WordShapes();
    if |fields| > 2 { HexErrorCode(fields[2]); }
  }

  /** Eight arguments, all readable; the port keeps its low 16 bits. */
  lemma ConnectMeaning(fields: Fields)
    requires Headed(fields, "connect")
    ensures var r := DecodeCall(fields);
            var texts := HexAt(fields, 2) && HexAt(fields, 4) && HexAt(fields, 5) && HexAt(fields, 6) &&
                         HexAt(fields, 7) && HexAt(fields, 8) && HexAt(fields, 9);
            && (r.Ok? <==> |fields| == 10 && texts && ParseU64(fields[3]).Some?)
            && (r.Ok? ==>
                  r.value == Connect(ConnectRequest(
                    TextAt(fields, 2), ParseU64(fields[3]).value % 65536, TextAt(fields, 4), TextAt(fields, 5),
                    TextAt(fields, 6), TextAt(fields, 7), TextAt(fields, 8), TextAt(fields, 9))))
            && (|fields| != 10 ==> r.Err? && r.error.code == "invalid_request")
  {
    hide HexDecode, ParseU64, ReadMessage, ReadGroup, ReadRename, ReadAway, ReadDisconnect, ReadNextEvent, ReadFlag;
    WordShapes();
  }

  lemma RenameMeaning(fields: Fields)
    requires Headed(fields, "rename_channel")
    ensures var r := DecodeCall(fields);
            && (r.Ok? <==> |fields| == 4 && HexAt(fields, 2) && HexAt(fields, 3))
            && (r.Ok? ==> r.value == RenameChannel(TextAt(fields, 2), TextAt(fields, 3)))
            && (|fields| != 4 ==> r.Err? && r.error.code == "invalid_request")
  {
    hide HexDecode, ReadConnect, ReadMessage, ReadGroup, ReadAway, ReadDisconnect, ReadNextEvent, ReadFlag;
    WordShapes();
  }

  predicate FlagAt(fields: Fields, index: nat) {
    index < |fields| && (fields[index] == "0" || fields[index] == "1")
  }

  /** A flag is exactly "0" or "1". */
  lemma FlagMeaning(fields: Fields)
    ensures var r := DecodeCall(fields);
            && (Headed(fields, "set_self_muted") ==>
                  if |fields| == 3 && FlagAt(fields, 2) then r == Ok(SetMuted(fields[2] == "1"))
                  else r.Err? && r.error.code == "invalid_request")
            && (Headed(fields, "set_self_speakers_muted") ==>
                  if |fields| == 3 && FlagAt(fields, 2) then r == Ok(SetSpeakersMuted(fields[2] == "1"))
                  else r.Err? && r.error.code == "invalid_request")
            && (Headed(fields, "set_self_away") ==>
                  if |fields| != 4 || !FlagAt(fields, 2) then r.Err? && r.error.code == "invalid_request"
                  else if HexAt(fields, 3) then r == Ok(SetAway(fields[2] == "1", TextAt(fields, 3)))
                  else r.Err? && r.error.code == "invalid_hex")
  {
    hide HexDecode, ReadConnect, ReadMessage, ReadGroup, ReadRename, ReadDisconnect, ReadNextEvent;
    WordShapes();
    if |fields| > 3 { HexErrorCode(fields[3]); }
  }

  /** The texts are read before the target's kind is looked at. */
  lemma MessageMeaning(fields: Fields)
    requires Headed(fields, "send_message")
    ensures var r := DecodeCall(fields);
            var readable := |fields| == 5 && HexAt(fields, 3) && HexAt(fields, 4);
            && (readable && fields[2] == "client" ==>
                  r == Ok(SendMessage(OneClient, TextAt(fields, 3), TextAt(fields, 4))))
            && (readable && fields[2] == "channel" ==>
                  r == Ok(SendMessage(WholeChannel, TextAt(fields, 3), TextAt(fields, 4))))
            && (readable && fields[2] != "client" && fields[2] != "channel" ==>
                  r.Err? && r.error.code == "invalid_target")
            && (!readable ==> r.Err? && r.error.code == if |fields| == 5 then "invalid_hex" else "invalid_request")
  {
    hide HexDecode, ReadConnect, ReadGroup, ReadRename, ReadAway, ReadDisconnect, ReadNextEvent, ReadFlag;
    WordShapes();
    assert |CLIENT_WORD| == 6 && |CHANNEL_WORD| == 7;
    if |fields| == 5 {
      HexErrorCode(fields[3]);
      HexErrorCode(fields[4]);
    }
  }

  /** A database id must be a number; a client is any text. */
  lemma GroupMeaning(fields: Fields)
    requires Headed(fields, "apply_server_group")
    ensures var r := DecodeCall(fields);
            var readable := |fields| == 5 && HexAt(fields, 2) && HexAt(fields, 4);
            && (readable && fields[3] == "client" ==>
                  r == Ok(ApplyGroup(TextAt(fields, 2), Some(TextAt(fields, 4)), None)))
            && (readable && fields[3] == "client_database_id" ==>
                  if ParseU64(TextAt(fields, 4)).Some? then
                    r == Ok(ApplyGroup(TextAt(fields, 2), None, ParseU64(TextAt(fields, 4))))
                  else r.Err? && r.error.code == "invalid_argument")
            && (readable && fields[3] != "client" && fields[3] != "client_database_id" ==>
                  r.Err? && r.error.code == "invalid_target")
            && (!readable ==> r.Err? && r.error.code == if |fields| == 5 then "invalid_hex" else "invalid_request")
  {
    hide HexDecode, ParseU64, ReadConnect, ReadMessage, ReadRename, ReadAway, ReadDisconnect, ReadNextEvent, ReadFlag;
    WordShapes();
    assert |CLIENT_WORD| == 6 && |DATABASE_WORD| == 18;
    if |fields| == 5 {
      HexErrorCode(fields[2]);
      HexErrorCode(fields[4]);
    }
  }

  /** A time-out of 2^63 milliseconds and more is taken for a negative one. */
  lemma NextEventMeaning(fields: Fields)
    requires Headed(fields, "next_event")
    ensures var r := DecodeCall(fields);
            if |fields| <= 2 then r.Err? && r.error.code == "missing_argument"
            else
              match ParseU64(fields[2])
              case None => r.Err? && r.error.code == "invalid_argument"
              case Some(n) =>
                r.Ok? && r.value.NextEvent? && -0x8000_0000_0000_0000 <= r.value.timeout < 0x8000_0000_0000_0000 &&
                (r.value.timeout == n || r.value.timeout + 0x1_0000_0000_0000_0000 == n)
  {
    hide ParseU64, ReadConnect, ReadMessage, ReadGroup, ReadRename, ReadAway, ReadDisconnect, ReadFlag;
    WordShapes();
  }

  // ---------- What of a call arrives ----------

  /** The call the backend gets when this one is made remotely, or the error it is refused with. */
  function Delivered(call: Call): Result<Call> {
    match call
    case ApplyGroup(group, client, databaseId) =>
      if client.Some? then Ok(ApplyGroup(group, client, None))
      else if databaseId.Some? then Ok(call)
      else Err(BAD_DATABASE_ID)
    case NextEvent(timeout) =>
      if timeout < 0 then Err(BridgeError("invalid_argument", INVALID_ARGUMENT + TIMEOUT_NAME, Usage)) else Ok(call)
    case _ => Ok(call)
  }

  lemma HexArgumentBack(fields: Fields, index: nat, name: bytes, s: bytes)
    requires index < |fields| && fields[index] == HexEncode(s)
    ensures HexArgument(fields, index, name) == Ok(s)
  {
    HexRoundTrip(s);
  }

  lemma ConnectArrives(fields: Fields, r: ConnectRequest)
    requires |fields| == 10 && fields[2] == HexEncode(r.host) && fields[3] == Decimal(r.port)
    requires fields[4] == HexEncode(r.nickname) && fields[5] == HexEncode(r.identity)
    requires fields[6] == HexEncode(r.serverPassword) && fields[7] == HexEncode(r.channelPassword)
    requires fields[8] == HexEncode(r.defaultChannel) && fields[9] == HexEncode(r.profile)
    ensures ReadConnect(fields) == Ok(Connect(r))
  {
    hide HexArgument, HexEncode, Decimal, ParseU64;
    HexArgumentBack(fields, 2, "host", r.host);
    ParseDecimal(r.port);
    HexArgumentBack(fields, 4, "nickname", r.nickname);
    HexArgumentBack(fields, 5, "identity", r.identity);
    HexArgumentBack(fields, 6, "server_password", r.serverPassword);
    HexArgumentBack(fields, 7, "channel_password", r.channelPassword);
    HexArgumentBack(fields, 8, "default_channel", r.defaultChannel);
    HexArgumentBack(fields, 9, "profile_name", r.profile);
  }

  lemma MessageArrives(fields: Fields, audience: Audience, target: bytes, text: bytes)
    requires |fields| == 5 && fields[2] == AudienceWord(audience)
    requires fields[3] == HexEncode(target) && fields[4] == HexEncode(text)
    ensures ReadMessage(fields) == Ok(SendMessage(audience, target, text))
  {
    hide HexArgument, HexEncode;
    HexArgumentBack(fields, 3, "target", target);
    HexArgumentBack(fields, 4, "text", text);
    assert |CLIENT_WORD| == 6 && |CHANNEL_WORD| == 7;
  }

  lemma GroupArrives(fields: Fields, group: bytes, client: Option<bytes>, databaseId: Option<u64>)
    requires |fields| == 5 && fields[2] == HexEncode(group)
    requires fields[3] == if client.Some? then CLIENT_WORD else DATABASE_WORD
    requires fields[4] == HexEncode(GroupTarget(client, databaseId))
    ensures ReadGroup(fields) == Delivered(ApplyGroup(group, client, databaseId))
  {
    hide HexArgument, HexEncode, Decimal, ParseU64;
    HexArgumentBack(fields, 2, "group", group);
    HexArgumentBack(fields, 4, "target", GroupTarget(client, databaseId));
    assert |CLIENT_WORD| == 6 && |DATABASE_WORD| == 18;
    if databaseId.Some? {
      ParseDecimal(databaseId.value);
    }
    assert ParseU64([]) == None by { NothingParses(); }
  }

  lemma NothingParses()
    ensures ParseU64([]) == None
  {
  }

  lemma TimeoutArrives(fields: Fields, timeout: i64)
    requires |fields| == 3 && fields[2] == SignedDecimal(timeout)
    ensures ReadNextEvent(fields) == Delivered(NextEvent(timeout))
  {
    hide ParseU64, SignedDecimal;
    ParseSignedDecimal(timeout);
  }

  lemma ArgumentsArrive(call: Call, fields: Fields)
    requires |fields| == 2 + |Arguments(call)|
    requires forall i :: 0 <= i < |Arguments(call)| ==> fields[2 + i] == Text(Arguments(call)[i])
    ensures ReadArguments(CommandFor(call), fields) == Delivered(call)
  {
    hide HexArgument, HexEncode, Decimal, ParseU64, SignedDecimal, ReadConnect, ReadMessage, ReadGroup, ReadNextEvent;
    var items := Arguments(call);
    match call
    case Connect(r) =>
      assert fields[2] == Text(items[0]) && fields[3] == Text(items[1]) && fields[4] == Text(items[2]);
      assert fields[5] == Text(items[3]) && fields[6] == Text(items[4]) && fields[7] == Text(items[5]);
      assert fields[8] == Text(items[6]) && fields[9] == Text(items[7]);
      ConnectArrives(fields, r);
    case SendMessage(audience, target, text) =>
      assert fields[2] == Text(items[0]) && fields[3] == Text(items[1]) && fields[4] == Text(items[2]);
      MessageArrives(fields, audience, target, text);
    case ApplyGroup(group, client, databaseId) =>
      assert fields[2] == Text(items[0]) && fields[3] == Text(items[1]) && fields[4] == Text(items[2]);
      GroupArrives(fields, group, client, databaseId);
    case NextEvent(timeout) =>
      assert fields[2] == Text(items[0]);
      TimeoutArrives(fields, timeout);
    case _ => SmallArgumentsArrive(call, fields);
  }

  lemma SmallArgumentsArrive(call: Call, fields: Fields)
    requires !call.Connect? && !call.SendMessage? && !call.ApplyGroup? && !call.NextEvent?
    requires |fields| == 2 + |Arguments(call)|
    requires forall i :: 0 <= i < |Arguments(call)| ==> fields[2 + i] == Text(Arguments(call)[i])
    ensures ReadArguments(CommandFor(call), fields) == Ok(call)
  {
    hide HexArgument, HexEncode;
    var items := Arguments(call);
    if items != [] {
      assert fields[2] == Text(items[0]);
      if items[0].Hex? {
        HexArgumentBack(fields, 2, if call.Disconnect? then "reason" else "selector", items[0].text);
      }
      if |items| == 2 {
        assert fields[3] == Text(items[1]);
        HexArgumentBack(fields, 3, if call.RenameChannel? then "name" else "message", items[1].text);
      }
    }
  }

  /** The request of a call is decoded to the call, or refused, as Delivered says. */
  lemma RequestArrives(call: Call)
    ensures DecodeCall(Request(call)) == Delivered(call)
  {
    hide WordOf, CommandOf, ReadArguments, Arguments, CommandFor, Delivered, Text;
    var items := RequestItems(call);
    var fields := Request(call);
    assert items[0] == Word(MAGIC) && items[1] == Word(WordOf(CommandFor(call)));
    TextOfWord(MAGIC);
    TextOfWord(WordOf(CommandFor(call)));
    CommandWords(CommandFor(call));
    forall i | 0 <= i < |Arguments(call)| ensures fields[2 + i] == Text(Arguments(call)[i]) {
      assert items[2 + i] == Arguments(call)[i];
    }
    ArgumentsArrive(call, fields);
  }

  lemma TextOfWord(word: bytes)
    ensures Text(Word(word)) == word
  {
  }

  lemma ArgumentWordsArePlain(call: Call)
    ensures PlainWords(Arguments(call))
  {
    assert Plain(CLIENT_WORD) && Plain(CHANNEL_WORD) && Plain(DATABASE_WORD);
  }

  lemma RequestIsPrintable(call: Call)
    ensures Printable(Request(call))
  {
    hide Arguments, WordOf;
    WordsArePlain(CommandFor(call));
    ArgumentWordsArePlain(call);
    TextsArePrintable(RequestItems(call));
  }

  // ---------- Replies as lines ----------

  const END: bytes := "end"
  const OK: bytes := "ok"
  const VOID: bytes := "void"
  const CHANNELS_TYPE: bytes := "channels"
  const CLIENTS_TYPE: bytes := "clients"

  function ReplyType(reply: Reply): bytes {
    match reply
    case Done => VOID
    case InfoReply(_) => INFO_TAG
    case StateReply(_) => STATE_TAG
    case ServerReply(_) => SERVER_TAG
    case ChannelsReply(_) => CHANNELS_TYPE
    case ClientsReply(_) => CLIENTS_TYPE
    case ChannelReply(_) => CHANNEL_TAG
    case ClientReply(_) => CLIENT_TAG
    case ApplicationReply(_) => GROUP_TAG
    case EventReply(_) => EVENT_TAG
  }

  ghost function Payload(reply: Reply): seq<Fields> {
    match reply
    case Done => []
    case InfoReply(info) => EncodePluginInfo(info)
    case StateReply(state) => EncodeState(state)
    case ServerReply(server) => EncodeServer(server)
    case ChannelsReply(channels) => Each(EncodeChannel, channels)
    case ClientsReply(clients) => Each(EncodeClient, clients)
    case ChannelReply(channel) => [EncodeChannel(channel)]
    case ClientReply(client) => [EncodeClient(client)]
    case ApplicationReply(application) => EncodeApplication(application)
    case EventReply(event) => EncodeEvent(event)
  }

  ghost function ReplyLines(r: Result<Reply>): seq<Fields> {
    match r
    case Err(e) => [EncodeError(e), [END]]
    case Ok(reply) => [[OK, ReplyType(reply)]] + Payload(reply) + [[END]]
  }

  function WriteLines(lines: seq<Fields>): bytes {
    if lines == [] then [] else JoinFields(lines[0]) + WriteLines(lines[1..])
  }

  lemma {:induction false} WriteLinesAppend(lines: seq<Fields>, last: Fields)
    ensures WriteLines(lines + [last]) == WriteLines(lines) + JoinFields(last)
  {
    hide JoinFields;
    if lines == [] {
      assert lines + [last] == [last] && [last][1..] == [];
      assert JoinFields(last) + [] == [] + JoinFields(last);
    } else {
      assert (lines + [last])[1..] == lines[1..] + [last];
      WriteLinesAppend(lines[1..], last);
    }
  }

  // ---------- Reading a reply ----------

  datatype Response = Response(kind: bytes, payload: seq<Fields>)

  const READ_FAILED: Error :=
    BridgeError("socket_read_failed", "failed to read reply from " + "plugin control socket", ConnectionExit)
  const BAD_HEADER: Error := BridgeError("invalid_response", "invalid bridge response header", ConnectionExit)
  const ENDED_EARLY: Error :=
    BridgeError("socket_read_failed", "bridge response ended unexpectedly", ConnectionExit)

  /** Lines up to the one that is just "end". */
  function ReadPayload(input: bytes): Option<seq<Fields>>
    decreases |input|
  {
    ReadLineShrinks(input);
    match ReadLine(input)
    case NoLine => None
    case Line(text, rest) =>
      if SplitFields(text) == [END] then Some([])
      else
        match ReadPayload(rest)
        case None => None
        case Some(lines) => Some([SplitFields(text)] + lines)
  }

  lemma ReadLineShrinks(input: bytes)
    ensures ReadLine(input).Line? ==> |ReadLine(input).rest| < |input|
  {
    ReadLineSplits(input);
  }

  /** The part of exchange that reads the reply; `none` and `early` are the errors if the bytes
      end before its first line, or before its last. */
  function ReadReply(input: bytes, none: Error, early: Error): Result<Response> {
    match ReadLine(input)
    case NoLine => Err(none)
    case Line(text, rest) =>
      var header := SplitFields(text);
      if header[0] == ERROR_TAG then Err(DecodeError(header))
      else if |header| != 2 || header[0] != OK then Err(BAD_HEADER)
      else
        match ReadPayload(rest)
        case None => Err(early)
        case Some(lines) => Ok(Response(header[1], lines))
  }

  /** What a connection that is closed in good order gives. */
  function ReadResponse(input: bytes): Result<Response> {
    ReadReply(input, READ_FAILED, ENDED_EARLY)
  }

  lemma {:induction false} ReadPayloadStable(input: bytes, more: bytes)
    requires ReadPayload(input).Some?
    ensures ReadPayload(input + more) == ReadPayload(input)
    decreases |input|
  {
    hide SplitFields, ReadLine;
    ReadLineShrinks(input);
    ReadLineAppend(input, more);
    if SplitFields(ReadLine(input).text) != [END] {
      ReadPayloadStable(ReadLine(input).rest, more);
    }
  }

  /** A reply that is cut short is read as what it was, or as cut short; never as another one. */
  lemma CutReply(output: bytes, cut: nat, none: Error, early: Error)
    requires cut <= |output|
    ensures var r := ReadReply(output[..cut], none, early);
            r == ReadResponse(output) || r == Err(none) || r == Err(early)
  {
    hide ReadPayload, SplitFields, ReadLine, DecodeError;
    var input := output[..cut];
    assert output == input + output[cut..];
    if ReadLine(input).Line? {
      ReadLineAppend(input, output[cut..]);
      var rest := ReadLine(input).rest;
      if ReadPayload(rest).Some? {
        ReadPayloadStable(rest, output[cut..]);
      }
    }
  }

  predicate PayloadLine(fields: Fields) {
    Printable(fields) && fields != [END]
  }

  /** The first of the lines written is the first one read. */
  lemma FirstLine(line: Fields, more: seq<Fields>)
    requires Printable(line)
    ensures ReadLine(WriteLines([line] + more)) == Line(Join(line, '\t'), WriteLines(more))
    ensures SplitFields(Join(line, '\t')) == line
  {
    hide JoinFields, ReadLine, Printable, SplitFields;
    var lines := [line] + more;
    assert lines[0] == line && lines[1..] == more;
    LineRoundTrip(line, WriteLines(more));
  }

  lemma {:induction false} PayloadRoundTrip(lines: seq<Fields>)
    requires forall i :: 0 <= i < |lines| ==> PayloadLine(lines[i])
    ensures ReadPayload(WriteLines(lines + [[END]])) == Some(lines)
  {
    hide WriteLines, ReadLine, Printable, SplitFields;
    if lines == [] {
      EndIsPrintable();
      assert lines + [[END]] == [[END]] + [];
      FirstLine([END], []);
    } else {
      assert lines + [[END]] == [lines[0]] + (lines[1..] + [[END]]);
      PayloadRoundTrip(lines[1..]);
      FirstLine(lines[0], lines[1..] + [[END]]);
      assert [lines[0]] + lines[1..] == lines;
    }
  }

  lemma EndIsPrintable()
    ensures Printable([END])
  {
  }

  lemma OkIsNotError()
    ensures OK != ERROR_TAG
  {
    assert |OK| == 2 && |ERROR_TAG| == 5;
  }

  lemma HeaderReads(header: Fields, payload: seq<Fields>)
    requires Printable(header) && |header| == 2 && header[0] == OK
    requires forall i :: 0 <= i < |payload| ==> PayloadLine(payload[i])
    ensures ReadResponse(WriteLines([header] + (payload + [[END]]))) == Ok(Response(header[1], payload))
  {
    hide WriteLines, ReadLine, Printable, SplitFields, ReadPayload, PayloadLine, DecodeError, Join;
    FirstLine(header, payload + [[END]]);
    PayloadRoundTrip(payload);
    OkIsNotError();
  }

  lemma ResponseRoundTrip(kind: bytes, payload: seq<Fields>)
    requires Plain(kind) && forall i :: 0 <= i < |payload| ==> PayloadLine(payload[i])
    ensures ReadResponse(WriteLines([[OK, kind]] + payload + [[END]])) == Ok(Response(kind, payload))
  {
    hide WriteLines, ReadResponse, Printable, PayloadLine;
    assert [[OK, kind]] + payload + [[END]] == [[OK, kind]] + (payload + [[END]]);
    HeaderIsPrintable(kind);
    HeaderReads([OK, kind], payload);
  }

  lemma HeaderIsPrintable(kind: bytes)
    requires Plain(kind)
    ensures Printable([OK, kind])
  {
  }

  lemma ErrorResponse(e: Error, more: seq<Fields>)
    ensures ReadResponse(WriteLines([EncodeError(e)] + more)) == Err(DecodeError(EncodeError(e)))
  {
    hide WriteLines, ReadLine, Printable, SplitFields, ReadPayload, DecodeError, Texts;
    assert Printable(EncodeError(e)) by { RecordIsPrintable(ERROR_TAG, ErrorItems(e)); }
    FirstLine(EncodeError(e), more);
  }
}
