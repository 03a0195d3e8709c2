/** The records of the control protocol (bridge/protocol.cpp): how each is put on a line of
    fields and read back. */
module Records {
  import opened Bytes
  import opened Wire

  // ---------- Domain records (domain/models.hpp) ----------

  datatype Binding = Binding(known: bool, mode: bytes, device: bytes, isDefault: bool)

  datatype Diagnostics = Diagnostics(
    capture: Binding, playback: Binding, pulseSink: bytes, pulseSource: bytes, sourceIsMonitor: bool,
    consumerConnected: bool, playbackActive: bool, queuedSamples: u64, speakerCount: u64,
    droppedAudio: u64, droppedPlayback: u64, lastError: bytes, deviceRegistered: bool, deviceId: bytes,
    deviceName: bytes, capturePathAvailable: bool, playbackAttached: bool, voiceEditAttached: bool,
    transmitReady: bool, transmitPath: bytes)

  datatype PluginInfo = PluginInfo(
    backend: bytes, transport: bytes, name: bytes, version: bytes, available: bool, socketPath: bytes,
    mediaTransport: bytes, mediaSocketPath: bytes, mediaFormat: bytes, note: bytes, diagnostics: Diagnostics)

  datatype Phase = Disconnected | Connecting | Connected

  datatype ConnectionState = ConnectionState(
    phase: Phase, backend: bytes, connection: u64, server: bytes, port: u16, nickname: bytes,
    identity: bytes, profile: bytes, mode: bytes)

  datatype ServerInfo = ServerInfo(
    name: bytes, host: bytes, port: u16, backend: bytes, current: Option<u64>, channelCount: u64, clientCount: u64)

  datatype Channel = Channel(
    id: u64, name: bytes, parent: Option<u64>, clientCount: u64, isDefault: bool, subscribed: bool)

  datatype Client = Client(
    id: u64, nickname: bytes, identity: bytes, channel: Option<u64>, isSelf: bool, talking: bool)

  datatype Application = Application(groupId: u64, groupName: bytes, client: Option<Client>, databaseId: u64)

  datatype Event = Event(kind: bytes, summary: bytes, at: int, fields: map<bytes, bytes>)

  // ---------- Reading one field ----------

  datatype Kind = HexField | NumField(name: bytes) | FlagField | ChannelField | PhaseField

  const INVALID_INTEGER: bytes := "invalid bridge integer for "
  const INVALID_BOOL: Error := ProtocolError("invalid_bool", "invalid bridge boolean")
  const INVALID_PHASE: Error := ProtocolError("invalid_phase", "invalid bridge connection phase")
  const CONNECTED: bytes := "connected"
  const CONNECTING: bytes := "connecting"
  const DISCONNECTED: bytes := "disconnected"

  function InvalidNumber(name: bytes): Error {
    ProtocolError("invalid_number", INVALID_INTEGER + name)
  }

  function RequiredU64(text: bytes, name: bytes): Result<u64> {
    match ParseU64(text)
    case None => Err(InvalidNumber(name))
    case Some(n) => Ok(n)
  }

  predicate IsPhase(word: bytes) {
    word == CONNECTED || word == CONNECTING || word == DISCONNECTED
  }

  function ReadItem(kind: Kind, text: bytes): Result<Item> {
    match kind
    case HexField =>
      var s :- HexDecode(text);
      Ok(Hex(s))
    case NumField(name) =>
      var n :- RequiredU64(text, name);
      Ok(Num(n))
    case FlagField => if text == "1" then Ok(Flag(true)) else if text == "0" then Ok(Flag(false)) else Err(INVALID_BOOL)
    case ChannelField =>
      if text == "0" then Ok(Maybe(None))
      else
        var n :- RequiredU64(text, "channel_id");
        Ok(Maybe(Some(n)))
    case PhaseField => if IsPhase(text) then Ok(Word(text)) else Err(INVALID_PHASE)
  }

  predicate Fits(kind: Kind, item: Item) {
    match kind
    case HexField => item.Hex?
    case NumField(_) => item.Num? && item.value < U64_LIMIT
    case FlagField => item.Flag?
    case ChannelField => item.Maybe?
    case PhaseField => item.Word? && IsPhase(item.word)
  }

  /** Channel 0 cannot be told from no channel. */
  function WireChannel(channel: Option<u64>): Option<u64> {
    if channel == Some(0) then None else channel
  }

  function Normal(item: Item): Item {
    if item.Maybe? then Maybe(WireChannel(item.channel)) else item
  }

  lemma DecimalIsZero(n: u64)
    ensures Decimal(n) == "0" <==> n == 0
  {
    NumberOfDecimal(n);
    NumberOfDecimal(0);
  }

  lemma ReadItemText(kind: Kind, item: Item)
    requires Fits(kind, item)
    ensures ReadItem(kind, Text(item)) == Ok(Normal(item))
  {
    match item
    case Hex(text) => HexRoundTrip(text);
    case Num(value) => ParseDecimal(value);
    case Maybe(channel) =>
      if channel.Some? {
        ParseDecimal(channel.value);
        DecimalIsZero(channel.value);
      }
    case Word(_) =>
    case Flag(_) =>
    case Int(_) =>
  }

  // ---------- Reading a line ----------

  /** The first field that cannot be read decides the error. */
  function ReadItems(kinds: seq<Kind>, fields: Fields): (r: Result<seq<Item>>)
    requires |kinds| == |fields|
    ensures r.Ok? ==> |r.value| == |kinds|
  {
    if kinds == [] then Ok([])
    else
      var item :- ReadItem(kinds[0], fields[0]);
      var rest :- ReadItems(kinds[1..], fields[1..]);
      Ok([item] + rest)
  }

  function Normals(items: seq<Item>): (r: seq<Item>)
    ensures |r| == |items|
    ensures forall i :: 0 <= i < |items| ==> r[i] == Normal(items[i])
  {
    if items == [] then [] else [Normal(items[0])] + Normals(items[1..])
  }

  predicate AllFit(kinds: seq<Kind>, items: seq<Item>) {
    |kinds| == |items| && forall i :: 0 <= i < |items| ==> Fits(kinds[i], items[i])
  }

  lemma {:induction false} ReadItemsTexts(kinds: seq<Kind>, items: seq<Item>)
    requires AllFit(kinds, items)
    ensures ReadItems(kinds, Texts(items)) == Ok(Normals(items))
  {
    if items != [] {
      hide ReadItem, Text, Normal, Fits;
      ReadItemText(kinds[0], items[0]);
      ReadItemsTexts(kinds[1..], items[1..]);
      assert Texts(items)[1..] == Texts(items[1..]);
    }
  }

  function EncodeRecord(tag: bytes, items: seq<Item>): Fields {
    [tag] + Texts(items)
  }

  function DecodeRecord(tag: bytes, kinds: seq<Kind>, fields: Fields, invalid: Error): Result<seq<Item>> {
    if |fields| != 1 + |kinds| || fields[0] != tag then Err(invalid)
    else ReadItems(kinds, fields[1..])
  }

  lemma RecordRoundTrip(tag: bytes, kinds: seq<Kind>, items: seq<Item>, invalid: Error)
    requires AllFit(kinds, items)
    ensures DecodeRecord(tag, kinds, EncodeRecord(tag, items), invalid) == Ok(Normals(items))
  {
    hide Texts, ReadItems, Normals;
    ReadItemsTexts(kinds, items);
    assert EncodeRecord(tag, items)[1..] == Texts(items);
  }

  /** Which texts a field of each kind accepts. */
  predicate Acceptable(kind: Kind, text: bytes) {
    match kind
    case HexField => HexDecode(text).Ok?
    case NumField(_) => ParseU64(text).Some?
    case ChannelField => ParseU64(text).Some?
    case FlagField => text == "0" || text == "1"
    case PhaseField => text in ["connected", "connecting", "disconnected"]
  }

  /** What is read from a text that is accepted, and which error one that is not gives. */
  lemma FieldMeans(kind: Kind, text: bytes)
    ensures var r := ReadItem(kind, text);
            && (r.Ok? <==> Acceptable(kind, text))
            && (r.Ok? ==>
                  match kind
                  case HexField => HexDecode(text) == Ok(HexOf(r.value)) && r.value.Hex?
                  case NumField(_) => ParseU64(text) == Some(NumOf(r.value)) && r.value.Num?
                  case ChannelField =>
                    r.value.Maybe? &&
                    ChannelOf(r.value) == if text == "0" then None else ParseU64(text)
                  case FlagField => r.value == Flag(text == "1")
                  case PhaseField => r.value == Word(text))
            && (r.Err? ==>
                  match kind
                  case HexField => r.error == HexDecode(text).error
                  case NumField(_) => r.error.code == "invalid_number"
                  case ChannelField => r.error.code == "invalid_number"
                  case FlagField => r.error.code == "invalid_bool"
                  case PhaseField => r.error.code == "invalid_phase")
  {
    hide HexDecode;
    assert ParseU64("0").Some? by { ZeroParses(); }
  }

  lemma ZeroParses()
    ensures ParseU64("0") == Some(0)
  {
    ParseDecimal(0);
  }

  /** A record is accepted if and only if it has its tag, as many fields as its kind has, and each
      of them is acceptable; otherwise the wrong shape, or the first bad field, is blamed. */
  lemma RecordAcceptedExactly(tag: bytes, kinds: seq<Kind>, fields: Fields, invalid: Error)
    ensures var r := DecodeRecord(tag, kinds, fields, invalid);
            var shaped := |fields| == 1 + |kinds| && fields[0] == tag;
            && (r.Ok? <==> shaped && forall i :: 0 <= i < |kinds| ==> Acceptable(kinds[i], fields[i + 1]))
            && (!shaped ==> r == Err(invalid))
            && (shaped && r.Err? ==>
                  exists i :: 0 <= i < |kinds| && !Acceptable(kinds[i], fields[i + 1]) &&
                    (forall j :: 0 <= j < i ==> Acceptable(kinds[j], fields[j + 1])) &&
                    ReadItem(kinds[i], fields[i + 1]) == Err(r.error))
            && (r.Ok? ==> |r.value| == |kinds|)
            && (r.Ok? ==> forall i :: 0 <= i < |kinds| ==> ReadItem(kinds[i], fields[i + 1]) == Ok(r.value[i]))
  {
    hide ReadItem, ReadItems, Acceptable;
    if |fields| == 1 + |kinds| && fields[0] == tag {
      ItemsAccepted(kinds, fields[1..]);
      assert forall i | 0 <= i < |kinds| :: fields[1..][i] == fields[i + 1];
    }
  }

  lemma {:induction false} ItemsAccepted(kinds: seq<Kind>, fields: Fields)
    requires |kinds| == |fields|
    ensures var r := ReadItems(kinds, fields);
            && (r.Ok? <==> forall i :: 0 <= i < |kinds| ==> Acceptable(kinds[i], fields[i]))
            && (r.Err? ==>
                  exists i :: 0 <= i < |kinds| && !Acceptable(kinds[i], fields[i]) &&
                    (forall j :: 0 <= j < i ==> Acceptable(kinds[j], fields[j])) &&
                    ReadItem(kinds[i], fields[i]) == Err(r.error))
            && (r.Ok? ==> forall i :: 0 <= i < |kinds| ==> ReadItem(kinds[i], fields[i]) == Ok(r.value[i]))
  {
    hide ReadItem, Acceptable;
    if kinds != [] {
      FieldMeans(kinds[0], fields[0]);
      var ks, fs := kinds[1..], fields[1..];
      ItemsAccepted(ks, fs);
      assert forall i | 0 <= i < |ks| :: ks[i] == kinds[i + 1] && fs[i] == fields[i + 1];
      assert forall i | 0 < i < |kinds| :: kinds[i] == ks[i - 1] && fields[i] == fs[i - 1];
      if ReadItem(kinds[0], fields[0]).Ok? && ReadItems(ks, fs).Err? {
        var i :| 0 <= i < |ks| && !Acceptable(ks[i], fs[i]) &&
                 (forall j :: 0 <= j < i ==> Acceptable(ks[j], fs[j])) &&
                 ReadItem(ks[i], fs[i]) == Err(ReadItems(ks, fs).error);
        assert !Acceptable(kinds[i + 1], fields[i + 1]);
        assert forall j | 0 <= j < i + 1 :: Acceptable(kinds[j], fields[j]);
      }
    }
  }

  lemma RecordIsPrintable(tag: bytes, items: seq<Item>)
    requires Plain(tag) && PlainWords(items)
    ensures Printable(EncodeRecord(tag, items))
  {
    TextsArePrintable([Word(tag)] + items);
    assert Texts([Word(tag)] + items) == [tag] + Texts(items);
  }

  function HexOf(item: Item): bytes { if item.Hex? then item.text else [] }
  function NumOf(item: Item): u64 { if item.Num? && item.value < U64_LIMIT then item.value else 0 }
  function FlagOf(item: Item): bool { item.Flag? && item.on }
  function ChannelOf(item: Item): Option<u64> { if item.Maybe? then item.channel else None }

  // ---------- Errors ----------

  const ERROR_TAG: bytes := "error"
  const INVALID_ENVELOPE: Error := ProtocolError("invalid_error", "invalid bridge error envelope")
  const ERROR_KINDS: seq<Kind> := [HexField, HexField, HexField, NumField("exit_code")]

  function ErrorItems(e: Error): seq<Item> {
    [Hex(e.category), Hex(e.code), Hex(e.message), Int(e.exit.Number())]
  }

  function EncodeError(e: Error): Fields {
    EncodeRecord(ERROR_TAG, ErrorItems(e))
  }

  /** `static_cast<ExitCode>`: the low 32 bits as a signed number. */
  function ExitOf(number: u64): ExitCode {
    if number == 0 then ExitOk
    else if number == 2 then Usage
    else if number == 3 then ConfigExit
    else if number == 4 then Sdk
    else if number == 5 then ConnectionExit
    else if number == 6 then NotFound
    else if number == 7 then Unsupported
    else if number == 10 then Internal
    else
      var low := number % 0x1_0000_0000;
      Unnamed(if low < 0x8000_0000 then low else low - 0x1_0000_0000)
  }

  function DecodeError(fields: Fields): Error {
    match DecodeRecord(ERROR_TAG, ERROR_KINDS, fields, INVALID_ENVELOPE)
    case Err(_) => INVALID_ENVELOPE
    case Ok(items) => Error(HexOf(items[0]), HexOf(items[1]), HexOf(items[2]), ExitOf(NumOf(items[3])), map[])
  }

  predicate FitsInt(number: int) {
    -0x8000_0000 <= number < 0x8000_0000
  }

  /** The cast keeps the number modulo 2^32, as an int has it. */
  lemma CastKeepsLowBits(number: u64)
    ensures FitsInt(ExitOf(number).Number())
    ensures (number - ExitOf(number).Number()) % 0x1_0000_0000 == 0
  {
  }

  /** An error crosses the wire without its details; one with a negative exit code, which no
      named code has, becomes a different error. */
  function WireError(e: Error): Error {
    if e.exit.Number() < 0 || !FitsInt(e.exit.Number()) then INVALID_ENVELOPE
    else e.(exit := ExitOf(e.exit.Number()), details := map[])
  }

  /** Exit codes that come back as they are: the named ones, and other numbers that are not
      negative and are not another name for one of them. */
  predicate PlainExit(exit: ExitCode) {
    exit.Unnamed? ==>
      0 <= exit.number < 0x8000_0000 && ExitOf(exit.number).Unnamed?
  }

  lemma PlainExitsSurvive(e: Error)
    ensures WireError(e) == e <==> e.details == map[] && PlainExit(e.exit)
  {
  }

  lemma NamedExitsSurvive(e: Error)
    requires !e.exit.Unnamed?
    ensures WireError(e) == e.(details := map[])
  {
  }

  lemma ErrorRoundTrip(e: Error)
    requires FitsInt(e.exit.Number())
    ensures DecodeError(EncodeError(e)) == WireError(e)
  {
    hide ReadItems, Texts, ExitOf;
    var n := e.exit.Number();
    if n < 0 {
      NegativeExitIsRefused(e);
    } else {
      var items := [Hex(e.category), Hex(e.code), Hex(e.message), Num(n)];
      assert Texts(items) == Texts(ErrorItems(e)) by { NaturalExit(e, items); }
      RecordRoundTrip(ERROR_TAG, ERROR_KINDS, items, INVALID_ENVELOPE);
      var back := Normals(items);
      assert back[0] == items[0] && back[1] == items[1] && back[2] == items[2] && back[3] == items[3];
    }
  }

  lemma SameTexts(a: seq<Item>, b: seq<Item>)
    requires |a| == |b| && forall i :: 0 <= i < |a| ==> Text(a[i]) == Text(b[i])
    ensures Texts(a) == Texts(b)
  {
  }

  lemma NaturalExit(e: Error, items: seq<Item>)
    requires e.exit.Number() >= 0
    requires items == [Hex(e.category), Hex(e.code), Hex(e.message), Num(e.exit.Number())]
    ensures Texts(items) == Texts(ErrorItems(e))
  {
    hide HexEncode, Decimal;
    assert Text(items[3]) == Text(ErrorItems(e)[3]);
    SameTexts(items, ErrorItems(e));
  }

  lemma NegativeExitIsRefused(e: Error)
    requires e.exit.Number() < 0
    ensures DecodeError(EncodeError(e)) == INVALID_ENVELOPE
  {
    hide Texts, SignedDecimal, ReadItems, DecodeRecord;
    var fields := EncodeError(e);
    assert fields[4] == Text(ErrorItems(e)[3]);
    ParseSignedDecimal(e.exit.Number());
    BadFieldFails(ERROR_KINDS, fields[1..], 3);
    assert DecodeRecord(ERROR_TAG, ERROR_KINDS, fields, INVALID_ENVELOPE).Err? by {
      BadRecordFails(ERROR_TAG, ERROR_KINDS, fields, INVALID_ENVELOPE);
    }
  }

  lemma BadRecordFails(tag: bytes, kinds: seq<Kind>, fields: Fields, invalid: Error)
    requires |fields| == 1 + |kinds| && ReadItems(kinds, fields[1..]).Err?
    ensures DecodeRecord(tag, kinds, fields, invalid).Err?
  {
  }

  lemma {:induction false} BadFieldFails(kinds: seq<Kind>, fields: Fields, i: nat)
    requires |kinds| == |fields| && i < |fields| && ReadItem(kinds[i], fields[i]).Err?
    ensures ReadItems(kinds, fields).Err?
  {
    if i > 0 {
      BadFieldFails(kinds[1..], fields[1..], i - 1);
    }
  }

  // ---------- Plugin info ----------

  const INFO_TAG: bytes := "plugin_info"
  const INVALID_INFO: Error := ProtocolError("invalid_plugin_info", "invalid plugin info payload")
  const INFO_KINDS: seq<Kind> :=
    [HexField, HexField, HexField, HexField, FlagField, HexField, HexField, HexField, HexField, HexField]
  const BINDING_KINDS: seq<Kind> := [FlagField, HexField, HexField, FlagField]
  const STATUS_KINDS: seq<Kind> :=
    [HexField, HexField, FlagField, FlagField, FlagField,
     NumField("queued_playback_samples"), NumField("active_speaker_count"),
     NumField("dropped_audio_chunks"), NumField("dropped_playback_chunks"), HexField]
  const DEVICE_KINDS: seq<Kind> :=
    [FlagField, HexField, HexField, FlagField, FlagField, FlagField, FlagField, HexField]
  const DIAGNOSTIC_KINDS: seq<Kind> := BINDING_KINDS + BINDING_KINDS + STATUS_KINDS + DEVICE_KINDS

  const NO_DIAGNOSTICS: Diagnostics :=
    Diagnostics(Binding(false, "", "", false), Binding(false, "", "", false), "", "", false, false, false,
                0, 0, 0, 0, "", false, "", "", false, false, false, false, "")

  function InfoItems(p: PluginInfo): seq<Item> {
    [Hex(p.backend), Hex(p.transport), Hex(p.name), Hex(p.version), Flag(p.available), Hex(p.socketPath),
     Hex(p.mediaTransport), Hex(p.mediaSocketPath), Hex(p.mediaFormat), Hex(p.note)]
  }

  function BindingItems(b: Binding): seq<Item> {
    [Flag(b.known), Hex(b.mode), Hex(b.device), Flag(b.isDefault)]
  }

  function StatusItems(d: Diagnostics): seq<Item> {
    [Hex(d.pulseSink), Hex(d.pulseSource), Flag(d.sourceIsMonitor), Flag(d.consumerConnected),
     Flag(d.playbackActive), Num(d.queuedSamples), Num(d.speakerCount), Num(d.droppedAudio),
     Num(d.droppedPlayback), Hex(d.lastError)]
  }

  function DeviceItems(d: Diagnostics): seq<Item> {
    [Flag(d.deviceRegistered), Hex(d.deviceId), Hex(d.deviceName), Flag(d.capturePathAvailable),
     Flag(d.playbackAttached), Flag(d.voiceEditAttached), Flag(d.transmitReady), Hex(d.transmitPath)]
  }

  function DiagnosticItems(d: Diagnostics): seq<Item> {
    BindingItems(d.capture) + BindingItems(d.playback) + StatusItems(d) + DeviceItems(d)
  }

  function EncodePluginInfo(p: PluginInfo): seq<Fields> {
    [EncodeRecord(INFO_TAG, InfoItems(p) + DiagnosticItems(p.diagnostics))]
  }

  function BindingFrom(items: seq<Item>, i: nat): Binding
    requires i + 4 <= |items|
  {
    Binding(FlagOf(items[i]), HexOf(items[i + 1]), HexOf(items[i + 2]), FlagOf(items[i + 3]))
  }

  function DiagnosticsFrom(s: seq<Item>): Diagnostics
    requires |s| == 26
  {
    Diagnostics(BindingFrom(s, 0), BindingFrom(s, 4), HexOf(s[8]), HexOf(s[9]), FlagOf(s[10]), FlagOf(s[11]),
                FlagOf(s[12]), NumOf(s[13]), NumOf(s[14]), NumOf(s[15]), NumOf(s[16]), HexOf(s[17]),
                FlagOf(s[18]), HexOf(s[19]), HexOf(s[20]), FlagOf(s[21]), FlagOf(s[22]), FlagOf(s[23]),
                FlagOf(s[24]), HexOf(s[25]))
  }

  function InfoFrom(s: seq<Item>, d: Diagnostics): PluginInfo
    requires |s| >= 10
  {
    PluginInfo(HexOf(s[0]), HexOf(s[1]), HexOf(s[2]), HexOf(s[3]), FlagOf(s[4]), HexOf(s[5]), HexOf(s[6]),
               HexOf(s[7]), HexOf(s[8]), HexOf(s[9]), d)
  }

  /** Both the long form and the short form, which has no diagnostics, are read. */
  function DecodePluginInfo(lines: seq<Fields>): Result<PluginInfo> {
    if |lines| != 1 then Err(INVALID_INFO)
    else if |lines[0]| == 11 then
      var items :- DecodeRecord(INFO_TAG, INFO_KINDS, lines[0], INVALID_INFO);
      Ok(InfoFrom(items, NO_DIAGNOSTICS))
    else
      var items :- DecodeRecord(INFO_TAG, INFO_KINDS + DIAGNOSTIC_KINDS, lines[0], INVALID_INFO);
      Ok(InfoFrom(items, DiagnosticsFrom(items[10..])))
  }

  predicate NoChannels(items: seq<Item>) {
    forall i :: 0 <= i < |items| ==> !items[i].Maybe?
  }

  lemma NormalsKeep(items: seq<Item>)
    requires NoChannels(items)
    ensures Normals(items) == items
  {
  }

  lemma InfoFits(p: PluginInfo)
    ensures AllFit(INFO_KINDS, InfoItems(p))
    ensures Normals(InfoItems(p)) == InfoItems(p)
    ensures InfoFrom(InfoItems(p), p.diagnostics) == p
  {
    hide Normals;
    NormalsKeep(InfoItems(p));
  }

  lemma BindingFits(b: Binding)
    ensures AllFit(BINDING_KINDS, BindingItems(b)) && NoChannels(BindingItems(b))
  {
  }

  lemma StatusFits(d: Diagnostics)
    ensures AllFit(STATUS_KINDS, StatusItems(d)) && NoChannels(StatusItems(d))
  {
  }

  lemma DeviceFits(d: Diagnostics)
    ensures AllFit(DEVICE_KINDS, DeviceItems(d)) && NoChannels(DeviceItems(d))
  {
  }

  lemma DiagnosticsFit(d: Diagnostics)
    ensures AllFit(DIAGNOSTIC_KINDS, DiagnosticItems(d))
    ensures Normals(DiagnosticItems(d)) == DiagnosticItems(d)
  {
    hide Normals, AllFit, BindingItems, StatusItems, DeviceItems;
    BindingFits(d.capture);
    BindingFits(d.playback);
    StatusFits(d);
    FitAppend(BINDING_KINDS, BINDING_KINDS, BindingItems(d.capture), BindingItems(d.playback));
    FitAppend(BINDING_KINDS + BINDING_KINDS, STATUS_KINDS,
              BindingItems(d.capture) + BindingItems(d.playback), StatusItems(d));
    DeviceFits(d);
    FitAppend(BINDING_KINDS + BINDING_KINDS + STATUS_KINDS, DEVICE_KINDS,
              BindingItems(d.capture) + BindingItems(d.playback) + StatusItems(d), DeviceItems(d));
    NormalsKeep(DiagnosticItems(d));
  }

  lemma DiagnosticsBack(d: Diagnostics)
    ensures |DiagnosticItems(d)| == 26 && DiagnosticsFrom(DiagnosticItems(d)) == d
  {
  }

  lemma NormalsAppend(a: seq<Item>, b: seq<Item>)
    ensures Normals(a + b) == Normals(a) + Normals(b)
  {
  }

  lemma FitAppend(k: seq<Kind>, l: seq<Kind>, a: seq<Item>, b: seq<Item>)
    requires AllFit(k, a) && AllFit(l, b)
    ensures AllFit(k + l, a + b)
  {
  }

  lemma PluginInfoRoundTrip(p: PluginInfo)
    ensures DecodePluginInfo(EncodePluginInfo(p)) == Ok(p)
  {
    hide Normals, Texts, ReadItems, InfoItems, DiagnosticItems, AllFit, InfoFrom, DiagnosticsFrom, DecodeRecord;
    var a, b := InfoItems(p), DiagnosticItems(p.diagnostics);
    InfoFits(p);
    DiagnosticsFit(p.diagnostics);
    DiagnosticsBack(p.diagnostics);
    NormalsAppend(a, b);
    FitAppend(INFO_KINDS, DIAGNOSTIC_KINDS, a, b);
    RecordRoundTrip(INFO_TAG, INFO_KINDS + DIAGNOSTIC_KINDS, a + b, INVALID_INFO);
    InfoSizes(p);
    assert (a + b)[10..] == b;
    InfoPrefix(a, b, p.diagnostics);
  }

  lemma InfoSizes(p: PluginInfo)
    ensures |InfoItems(p)| == 10 && |DiagnosticItems(p.diagnostics)| == 26
    ensures |EncodePluginInfo(p)[0]| == 37
  {
  }

  lemma InfoPrefix(a: seq<Item>, b: seq<Item>, d: Diagnostics)
    requires |a| == 10
    ensures InfoFrom(a + b, d) == InfoFrom(a, d)
  {
  }

  /** The short form of an older plugin gives the same record without diagnostics. */
  lemma ShortPluginInfo(p: PluginInfo)
    ensures DecodePluginInfo([EncodeRecord(INFO_TAG, InfoItems(p))]) == Ok(p.(diagnostics := NO_DIAGNOSTICS))
  {
    hide Texts, ReadItems, DecodeRecord;
    InfoFits(p);
    RecordRoundTrip(INFO_TAG, INFO_KINDS, InfoItems(p), INVALID_INFO);
  }

  // ---------- Connection state ----------

  const STATE_TAG: bytes := "connection_state"
  const INVALID_STATE: Error := ProtocolError("invalid_connection_state", "invalid connection state payload")
  const STATE_KINDS: seq<Kind> :=
    [PhaseField, HexField, NumField("connection"), HexField, NumField("port"), HexField, HexField, HexField, HexField]

  function PhaseWord(phase: Phase): bytes {
    match phase
    case Disconnected => DISCONNECTED
    case Connecting => CONNECTING
    case Connected => CONNECTED
  }

  function PhaseOf(item: Item): Phase {
    if item == Word(CONNECTED) then Connected else if item == Word(CONNECTING) then Connecting else Disconnected
  }

  /** `static_cast<std::uint16_t>` */
  function PortOf(item: Item): u16 {
    NumOf(item) % 0x1_0000
  }

  function StateItems(s: ConnectionState): seq<Item> {
    [Word(PhaseWord(s.phase)), Hex(s.backend), Num(s.connection), Hex(s.server), Num(s.port), Hex(s.nickname),
     Hex(s.identity), Hex(s.profile), Hex(s.mode)]
  }

  function EncodeState(s: ConnectionState): seq<Fields> {
    [EncodeRecord(STATE_TAG, StateItems(s))]
  }

  function StateFrom(s: seq<Item>): ConnectionState
    requires |s| == 9
  {
    ConnectionState(PhaseOf(s[0]), HexOf(s[1]), NumOf(s[2]), HexOf(s[3]), PortOf(s[4]), HexOf(s[5]),
                    HexOf(s[6]), HexOf(s[7]), HexOf(s[8]))
  }

  function DecodeState(lines: seq<Fields>): Result<ConnectionState> {
    if |lines| != 1 then Err(INVALID_STATE)
    else
      var items :- DecodeRecord(STATE_TAG, STATE_KINDS, lines[0], INVALID_STATE);
      Ok(StateFrom(items))
  }

  lemma PhaseWordsDiffer(phase: Phase)
    ensures IsPhase(PhaseWord(phase)) && Plain(PhaseWord(phase)) && PhaseOf(Word(PhaseWord(phase))) == phase
  {
    assert |CONNECTED| == 9 && |CONNECTING| == 10 && |DISCONNECTED| == 12;
  }

  lemma StateFits(s: ConnectionState)
    ensures AllFit(STATE_KINDS, StateItems(s)) && NoChannels(StateItems(s))
  {
    hide PhaseWord, IsPhase;
    PhaseWordsDiffer(s.phase);
  }

  lemma StateBack(s: ConnectionState)
    ensures |StateItems(s)| == 9 && StateFrom(StateItems(s)) == s
  {
    hide PhaseWord, PhaseOf;
    PhaseWordsDiffer(s.phase);
  }

  lemma StateRoundTrip(s: ConnectionState)
    ensures DecodeState(EncodeState(s)) == Ok(s)
  {
    hide Normals, Texts, ReadItems, DecodeRecord, StateItems, AllFit;
    StateFits(s);
    StateBack(s);
    NormalsKeep(StateItems(s));
    RecordRoundTrip(STATE_TAG, STATE_KINDS, StateItems(s), INVALID_STATE);
  }

  // ---------- Server info ----------

  const SERVER_TAG: bytes := "server_info"
  const INVALID_SERVER: Error := ProtocolError("invalid_server_info", "invalid server info payload")
  const SERVER_KINDS: seq<Kind> :=
    [HexField, HexField, NumField("port"), HexField, ChannelField, NumField("channel_count"), NumField("client_count")]

  function ServerItems(s: ServerInfo): seq<Item> {
    [Hex(s.name), Hex(s.host), Num(s.port), Hex(s.backend), Maybe(s.current), Num(s.channelCount), Num(s.clientCount)]
  }

  function EncodeServer(s: ServerInfo): seq<Fields> {
    [EncodeRecord(SERVER_TAG, ServerItems(s))]
  }

  function ServerFrom(s: seq<Item>): ServerInfo
    requires |s| == 7
  {
    ServerInfo(HexOf(s[0]), HexOf(s[1]), PortOf(s[2]), HexOf(s[3]), ChannelOf(s[4]), NumOf(s[5]), NumOf(s[6]))
  }

  function DecodeServer(lines: seq<Fields>): Result<ServerInfo> {
    if |lines| != 1 then Err(INVALID_SERVER)
    else
      var items :- DecodeRecord(SERVER_TAG, SERVER_KINDS, lines[0], INVALID_SERVER);
      Ok(ServerFrom(items))
  }

  lemma ServerFits(s: ServerInfo)
    ensures AllFit(SERVER_KINDS, ServerItems(s))
  {
  }

  lemma ServerRoundTrip(s: ServerInfo)
    ensures DecodeServer(EncodeServer(s)) == Ok(s.(current := WireChannel(s.current)))
  {
    ServerFits(s);
    hide AllFit, Texts, ReadItems, DecodeRecord;
    RecordRoundTrip(SERVER_TAG, SERVER_KINDS, ServerItems(s), INVALID_SERVER);
  }

  // ---------- Channels and clients ----------

  const CHANNEL_TAG: bytes := "channel"
  const INVALID_CHANNEL: Error := ProtocolError("invalid_channel", "invalid channel payload")
  const CHANNEL_KINDS: seq<Kind> :=
    [NumField("channel_id"), HexField, ChannelField, NumField("client_count"), FlagField, FlagField]

  function ChannelItems(c: Channel): seq<Item> {
    [Num(c.id), Hex(c.name), Maybe(c.parent), Num(c.clientCount), Flag(c.isDefault), Flag(c.subscribed)]
  }

  function EncodeChannel(c: Channel): Fields {
    EncodeRecord(CHANNEL_TAG, ChannelItems(c))
  }

  function ChannelFrom(s: seq<Item>): Channel
    requires |s| == 6
  {
    Channel(NumOf(s[0]), HexOf(s[1]), ChannelOf(s[2]), NumOf(s[3]), FlagOf(s[4]), FlagOf(s[5]))
  }

  function DecodeChannel(fields: Fields): Result<Channel> {
    var items :- DecodeRecord(CHANNEL_TAG, CHANNEL_KINDS, fields, INVALID_CHANNEL);
    Ok(ChannelFrom(items))
  }

  function WiredChannel(c: Channel): Channel {
    c.(parent := WireChannel(c.parent))
  }

  lemma ChannelRoundTrip(c: Channel)
    ensures DecodeChannel(EncodeChannel(c)) == Ok(WiredChannel(c))
  {
    hide Texts, ReadItems, DecodeRecord;
    RecordRoundTrip(CHANNEL_TAG, CHANNEL_KINDS, ChannelItems(c), INVALID_CHANNEL);
  }

  const CLIENT_TAG: bytes := "client"
  const INVALID_CLIENT: Error := ProtocolError("invalid_client", "invalid client payload")
  const CLIENT_KINDS: seq<Kind> :=
    [NumField("client_id"), HexField, HexField, ChannelField, FlagField, FlagField]

  function ClientItems(c: Client): seq<Item> {
    [Num(c.id), Hex(c.nickname), Hex(c.identity), Maybe(c.channel), Flag(c.isSelf), Flag(c.talking)]
  }

  function EncodeClient(c: Client): Fields {
    EncodeRecord(CLIENT_TAG, ClientItems(c))
  }

  function ClientFrom(s: seq<Item>): Client
    requires |s| == 6
  {
    Client(NumOf(s[0]), HexOf(s[1]), HexOf(s[2]), ChannelOf(s[3]), FlagOf(s[4]), FlagOf(s[5]))
  }

  function DecodeClient(fields: Fields): Result<Client> {
    var items :- DecodeRecord(CLIENT_TAG, CLIENT_KINDS, fields, INVALID_CLIENT);
    Ok(ClientFrom(items))
  }

  function WiredClient(c: Client): Client {
    c.(channel := WireChannel(c.channel))
  }

  lemma ClientRoundTrip(c: Client)
    ensures DecodeClient(EncodeClient(c)) == Ok(WiredClient(c))
  {
    hide Texts, ReadItems, DecodeRecord;
    RecordRoundTrip(CLIENT_TAG, CLIENT_KINDS, ClientItems(c), INVALID_CLIENT);
  }

  // ---------- Lists of records ----------

  function Each<T, U>(f: T -> U, xs: seq<T>): (ys: seq<U>)
    ensures |ys| == |xs|
    ensures forall i :: 0 <= i < |xs| ==> ys[i] == f(xs[i])
  {
    if xs == [] then [] else [f(xs[0])] + Each(f, xs[1..])
  }

  /** The first line that cannot be decoded decides the error. */
  function DecodeEach<T>(f: Fields -> Result<T>, lines: seq<Fields>): Result<seq<T>> {
    if lines == [] then Ok([])
    else
      var first :- f(lines[0]);
      var rest :- DecodeEach(f, lines[1..]);
      Ok([first] + rest)
  }

  lemma {:induction false} EachRoundTrip<T>(encode: T -> Fields, decode: Fields -> Result<T>,
    normal: T -> T, xs: seq<T>)
    requires forall i :: 0 <= i < |xs| ==> decode(encode(xs[i])) == Ok(normal(xs[i]))
    ensures DecodeEach(decode, Each(encode, xs)) == Ok(Each(normal, xs))
  {
    if xs != [] {
      EachRoundTrip(encode, decode, normal, xs[1..]);
      assert Each(encode, xs)[1..] == Each(encode, xs[1..]);
    }
  }

  lemma {:induction false} DecodeEachAppend<T>(f: Fields -> Result<T>, lines: seq<Fields>, last: Fields)
    ensures DecodeEach(f, lines + [last]) ==
            if DecodeEach(f, lines).Err? then DecodeEach(f, lines)
            else if f(last).Err? then Err(f(last).error)
            else Ok(DecodeEach(f, lines).value + [f(last).value])
  {
    if lines == [] {
      assert lines + [last] == [last] && [last][1..] == [];
      if f(last).Ok? {
        assert [f(last).value] + [] == [] + [f(last).value];
      }
    } else {
      assert (lines + [last])[1..] == lines[1..] + [last];
      DecodeEachAppend(f, lines[1..], last);
      var first, rest := f(lines[0]), DecodeEach(f, lines[1..]);
      if first.Ok? && rest.Ok? && f(last).Ok? {
        assert [first.value] + (rest.value + [f(last).value]) == [first.value] + rest.value + [f(last).value];
      }
    }
  }

  lemma {:induction false} DecodeEachFails<T>(f: Fields -> Result<T>, lines: seq<Fields>, more: seq<Fields>)
    requires DecodeEach(f, lines).Err?
    ensures DecodeEach(f, lines + more) == DecodeEach(f, lines)
  {
    assert (lines + more)[1..] == lines[1..] + more;
    if f(lines[0]).Ok? {
      DecodeEachFails(f, lines[1..], more);
    }
  }

  lemma ChannelsRoundTrip(cs: seq<Channel>)
    ensures DecodeEach(DecodeChannel, Each(EncodeChannel, cs)) == Ok(Each(WiredChannel, cs))
  {
    forall i | 0 <= i < |cs| ensures DecodeChannel(EncodeChannel(cs[i])) == Ok(WiredChannel(cs[i])) {
      ChannelRoundTrip(cs[i]);
    }
    EachRoundTrip(EncodeChannel, DecodeChannel, WiredChannel, cs);
  }

  lemma ClientsRoundTrip(cs: seq<Client>)
    ensures DecodeEach(DecodeClient, Each(EncodeClient, cs)) == Ok(Each(WiredClient, cs))
  {
    forall i | 0 <= i < |cs| ensures DecodeClient(EncodeClient(cs[i])) == Ok(WiredClient(cs[i])) {
      ClientRoundTrip(cs[i]);
    }
    EachRoundTrip(EncodeClient, DecodeClient, WiredClient, cs);
  }

  /** decode_channels and decode_clients: one line after another until one cannot be decoded. */
  method DecodeLines<T>(decode: Fields -> Result<T>, lines: seq<Fields>) returns (r: Result<seq<T>>)
    ensures r == DecodeEach(decode, lines)
  {
    var decoded: seq<T> := [];
    for i := 0 to |lines|
      invariant DecodeEach(decode, lines[..i]) == Ok(decoded)
    {
      var one := decode(lines[i]);
      DecodeEachAppend(decode, lines[..i], lines[i]);
      assert lines[..i + 1] == lines[..i] + [lines[i]];
      if one.Err? {
        DecodeEachFails(decode, lines[..i + 1], lines[i + 1..]);
        assert lines[..i + 1] + lines[i + 1..] == lines;
        return Err(one.error);
      }
      decoded := decoded + [one.value];
    }
    assert lines[..|lines|] == lines;
    return Ok(decoded);
  }

  // ---------- Server group applications ----------

  const GROUP_TAG: bytes := "server_group_application"
  const INVALID_GROUP_CODE: bytes := "invalid_server_group_application"
  const INVALID_GROUP: Error :=
    ProtocolError(INVALID_GROUP_CODE, "invalid server group application payload")
  const GROUP_MISMATCH: Error :=
    ProtocolError(INVALID_GROUP_CODE, "server group application " + "client payload mismatch")
  const GROUP_KINDS: seq<Kind> :=
    [NumField("server_group_id"), HexField, NumField("client_database_id"), FlagField]

  function GroupItems(a: Application): seq<Item> {
    [Num(a.groupId), Hex(a.groupName), Num(a.databaseId), Flag(a.client.Some?)]
  }

  function EncodeApplication(a: Application): seq<Fields> {
    [EncodeRecord(GROUP_TAG, GroupItems(a))] + if a.client.Some? then [EncodeClient(a.client.value)] else []
  }

  function DecodeApplication(lines: seq<Fields>): Result<Application> {
    if lines == [] || |lines| > 2 then Err(INVALID_GROUP)
    else
      var items :- DecodeRecord(GROUP_TAG, GROUP_KINDS, lines[0], INVALID_GROUP);
      if FlagOf(items[3]) != (|lines| == 2) then Err(GROUP_MISMATCH)
      else if |lines| == 1 then Ok(Application(NumOf(items[0]), HexOf(items[1]), None, NumOf(items[2])))
      else
        var client :- DecodeClient(lines[1]);
        Ok(Application(NumOf(items[0]), HexOf(items[1]), Some(client), NumOf(items[2])))
  }

  /** The line of the client must be there exactly when the first line says so. */
  lemma ApplicationMismatch(a: Application, c: Client)
    ensures a.client.Some? ==> DecodeApplication(EncodeApplication(a)[..1]) == Err(GROUP_MISMATCH)
    ensures a.client.None? ==> DecodeApplication(EncodeApplication(a) + [EncodeClient(c)]) == Err(GROUP_MISMATCH)
    ensures GROUP_MISMATCH.code == "invalid_server_group_application"
  {
    hide Texts, ReadItems, DecodeRecord, DecodeClient, EncodeClient;
    RecordRoundTrip(GROUP_TAG, GROUP_KINDS, GroupItems(a), INVALID_GROUP);
    var back := Normals(GroupItems(a));
    assert back[3] == GroupItems(a)[3];
  }

  function WiredApplication(a: Application): Application {
    if a.client.Some? then a.(client := Some(WiredClient(a.client.value))) else a
  }

  lemma ApplicationRoundTrip(a: Application)
    ensures DecodeApplication(EncodeApplication(a)) == Ok(WiredApplication(a))
  {
    hide Texts, ReadItems, DecodeRecord, DecodeClient, EncodeClient, WiredClient;
    RecordRoundTrip(GROUP_TAG, GROUP_KINDS, GroupItems(a), INVALID_GROUP);
    if a.client.Some? {
      ClientRoundTrip(a.client.value);
    }
  }

  // ---------- Events ----------

  const EVENT_TAG: bytes := "event"
  const NO_EVENT: bytes := "no_event"
  const INVALID_EVENT: Error := ProtocolError("invalid_event", "invalid event payload")
  const INVALID_EVENT_PAYLOAD: Error := ProtocolError("invalid_event_payload", "invalid event payload")
  const EVENT_MISMATCH: Error :=
    ProtocolError("invalid_event", "bridge event field count " + "does not match payload")
  const EVENT_KINDS: seq<Kind> := [HexField, HexField, NumField("event_timestamp"), NumField("field_count")]
  const NANOS: int := 1_000_000

  /** `duration_cast` to milliseconds truncates toward zero. */
  function Millis(at: int): int {
    if at >= 0 then at / NANOS else -(-at / NANOS)
  }

  /** Times are cut towards the epoch. */
  lemma MillisTruncate(at: int)
    ensures at >= 0 ==> Millis(at) * 1_000_000 <= at < (Millis(at) + 1) * 1_000_000
    ensures at < 0 ==> (Millis(at) - 1) * 1_000_000 < at <= Millis(at) * 1_000_000
  {
  }

  function PairItems(keys: seq<bytes>, m: map<bytes, bytes>): (r: seq<Item>)
    requires forall k :: k in keys ==> k in m
    ensures |r| == 2 * |keys|
    ensures forall i :: 0 <= i < |keys| ==> r[2 * i] == Hex(keys[i]) && r[2 * i + 1] == Hex(m[keys[i]])
  {
    if keys == [] then [] else [Hex(keys[0]), Hex(m[keys[0]])] + PairItems(keys[1..], m)
  }

  function EventHead(e: Event): seq<Item> {
    [Hex(e.kind), Hex(e.summary), Int(Millis(e.at)), Num(|e.fields|)]
  }

  /** The fields go out in the order of a std::map. */
  ghost function EncodeEvent(event: Option<Event>): seq<Fields> {
    match event
    case None => [[NO_EVENT]]
    case Some(e) => [EncodeRecord(EVENT_TAG, EventHead(e) + PairItems(SortedKeys(e.fields.Keys), e.fields))]
  }

  const MISSING_FIELD: bytes := "missing bridge field: "

  function StringAt(fields: Fields, index: nat, name: bytes): Result<bytes> {
    if index >= |fields| then Err(ProtocolError("missing_field", MISSING_FIELD + name))
    else HexDecode(fields[index])
  }

  /** 64-bit index arithmetic. */
  function KeyIndex(i: nat): u64 { (5 + i * 2) % U64_LIMIT }
  function ValueIndex(i: nat): u64 { (6 + i * 2) % U64_LIMIT }

  /** The loop of decode_event; `emplace` keeps the first value of a key. */
  function ReadPairs(fields: Fields, count: nat, i: nat, acc: map<bytes, bytes>): Result<map<bytes, bytes>>
    decreases count - i
  {
    if i >= count then Ok(acc)
    else
      var key :- StringAt(fields, KeyIndex(i), "event_field_key");
      var value :- StringAt(fields, ValueIndex(i), "event_field_value");
      ReadPairs(fields, count, i + 1, if key in acc then acc else acc[key := value])
  }

  /** Of the values given for one key the first is kept. */
  lemma {:induction false} FirstValueWins(fields: Fields, count: nat, i: nat, acc: map<bytes, bytes>, j: nat)
    requires i <= j < count && 5 + 2 * count <= |fields| < U64_LIMIT
    requires ReadPairs(fields, count, i, acc).Ok?
    requires HexDecode(fields[5 + 2 * j]).Ok? && HexDecode(fields[5 + 2 * j]).value !in acc
    requires forall k :: i <= k < j ==> HexDecode(fields[5 + 2 * k]) != HexDecode(fields[5 + 2 * j])
    ensures var m, key := ReadPairs(fields, count, i, acc).value, HexDecode(fields[5 + 2 * j]).value;
            key in m && Ok(m[key]) == HexDecode(fields[6 + 2 * j])
    decreases count - i
  {
    hide HexDecode;
    var key, value := HexDecode(fields[5 + 2 * i]), HexDecode(fields[6 + 2 * i]);
    IndexFits(fields, count, i);
    var more := if key.value in acc then acc else acc[key.value := value.value];
    if i < j {
      FirstValueWins(fields, count, i + 1, more, j);
    } else {
      PairsAreKept(fields, count, i + 1, more, key.value);
    }
  }

  lemma IndexFits(fields: Fields, count: nat, i: nat)
    requires i < count && 5 + 2 * count <= |fields| < U64_LIMIT
    ensures KeyIndex(i) == 5 + 2 * i && ValueIndex(i) == 6 + 2 * i
  {
  }

  lemma {:induction false} PairsAreKept(fields: Fields, count: nat, i: nat, acc: map<bytes, bytes>, key: bytes)
    requires ReadPairs(fields, count, i, acc).Ok? && key in acc
    ensures key in ReadPairs(fields, count, i, acc).value && ReadPairs(fields, count, i, acc).value[key] == acc[key]
    decreases count - i
  {
    hide StringAt;
    if i < count {
      var k := StringAt(fields, KeyIndex(i), "event_field_key");
      var v := StringAt(fields, ValueIndex(i), "event_field_value");
      PairsAreKept(fields, count, i + 1, if k.value in acc then acc else acc[k.value := v.value], key);
    }
  }

  function ReadEvent(fields: Fields): Result<Option<Event>> {
    if |fields| < 5 || fields[0] != EVENT_TAG then Err(INVALID_EVENT)
    else
      var head :- ReadItems(EVENT_KINDS, fields[1..5]);
      var count := NumOf(head[3]);
      if |fields| != (5 + count * 2) % U64_LIMIT then Err(EVENT_MISMATCH)
      else
        var pairs :- ReadPairs(fields, count, 0, map[]);
        Ok(Some(Event(HexOf(head[0]), HexOf(head[1]), NumOf(head[2]) * NANOS, pairs)))
  }

  function DecodeEvent(lines: seq<Fields>): Result<Option<Event>> {
    if |lines| != 1 then Err(INVALID_EVENT_PAYLOAD)
    else if lines[0] == [NO_EVENT] then Ok(None)
    else ReadEvent(lines[0])
  }

  /** A read past the last field ends the loop with an error. */
  lemma {:induction false} ReadPairsOverruns(fields: Fields, count: nat, i: nat, acc: map<bytes, bytes>)
    requires 5 + 2 * i <= |fields| < 5 + 2 * count && |fields| < U64_LIMIT
    ensures ReadPairs(fields, count, i, acc).Err?
    decreases count - i
  {
    if 5 + 2 * i < |fields| {
      assert KeyIndex(i) == 5 + 2 * i && ValueIndex(i) == 6 + 2 * i;
      var key, value := StringAt(fields, KeyIndex(i), "event_field_key"),
        StringAt(fields, ValueIndex(i), "event_field_value");
      if key.Ok? && value.Ok? {
        ReadPairsOverruns(fields, count, i + 1, if key.value in acc then acc else acc[key.value := value.value]);
      }
    } else {
      assert KeyIndex(i) == |fields|;
    }
  }

  /** The length check compares 64-bit numbers that can wrap, yet an event is only ever decoded
      from a list of exactly 5 fields and twice the declared count. */
  lemma EventCountIsExact(fields: Fields)
    requires ReadEvent(fields).Ok?
    ensures |fields| >= 5 && ParseU64(fields[4]).Some?
    ensures |fields| == 5 + 2 * ParseU64(fields[4]).value
  {
    hide ReadPairs;
    var count := DeclaredCount(fields);
    if |fields| != 5 + 2 * count {
      assert 5 + count * 2 >= U64_LIMIT;
      ReadPairsOverruns(fields, count, 0, map[]);
    }
  }

  lemma DeclaredCount(fields: Fields) returns (count: u64)
    requires ReadEvent(fields).Ok?
    ensures |fields| >= 5 && ParseU64(fields[4]) == Some(count)
    ensures |fields| == (5 + count * 2) % U64_LIMIT
    ensures ReadPairs(fields, count, 0, map[]).Ok?
  {
    hide ReadPairs, HexDecode;
    var head := ReadItems(EVENT_KINDS, fields[1..5]).value;
    ReadItemsAt(EVENT_KINDS, fields[1..5], 3);
    count := NumOf(head[3]);
  }

  lemma {:induction false} ReadItemsAt(kinds: seq<Kind>, fields: Fields, i: nat)
    requires |kinds| == |fields| && ReadItems(kinds, fields).Ok? && i < |fields|
    ensures ReadItem(kinds[i], fields[i]) == Ok(ReadItems(kinds, fields).value[i])
  {
    if i > 0 {
      ReadItemsAt(kinds[1..], fields[1..], i - 1);
    }
  }

  function Restricted(m: map<bytes, bytes>, keys: seq<bytes>): map<bytes, bytes>
    requires forall k :: k in keys ==> k in m
  {
    map k | k in keys :: m[k]
  }

  lemma ReadOnePair(fields: Fields, count: nat, i: nat, acc: map<bytes, bytes>, key: bytes, value: bytes)
    requires i < count && 6 + 2 * i < |fields| && 6 + 2 * i < U64_LIMIT
    requires fields[5 + 2 * i] == HexEncode(key) && fields[6 + 2 * i] == HexEncode(value) && key !in acc
    ensures ReadPairs(fields, count, i, acc) == ReadPairs(fields, count, i + 1, acc[key := value])
  {
    hide HexEncode, HexDecode;
    HexRoundTrip(key);
    HexRoundTrip(value);
    assert KeyIndex(i) == 5 + 2 * i && ValueIndex(i) == 6 + 2 * i;
  }

  lemma RestrictedGrows(m: map<bytes, bytes>, keys: seq<bytes>, i: nat)
    requires i < |keys| && forall k :: k in keys ==> k in m
    requires forall a, b :: 0 <= a < b < |keys| ==> keys[a] != keys[b]
    ensures keys[i] !in Restricted(m, keys[..i])
    ensures Restricted(m, keys[..i + 1]) == Restricted(m, keys[..i])[keys[i] := m[keys[i]]]
  {
    assert keys[..i + 1] == keys[..i] + [keys[i]];
  }

  lemma ReadPairsEnd(fields: Fields, count: nat, acc: map<bytes, bytes>)
    ensures ReadPairs(fields, count, count, acc) == Ok(acc)
  {
  }

  /** Reading back the pairs of distinct keys rebuilds the map key by key. */
  lemma {:induction false} ReadPairsBack(fields: Fields, keys: seq<bytes>, m: map<bytes, bytes>, i: nat)
    requires i <= |keys| < 0x4000_0000_0000_0000 && forall k :: k in keys ==> k in m
    requires forall a, b :: 0 <= a < b < |keys| ==> keys[a] != keys[b]
    requires |fields| == 5 + 2 * |keys|
    requires forall j :: 0 <= j < |keys| ==>
               fields[5 + 2 * j] == HexEncode(keys[j]) && fields[6 + 2 * j] == HexEncode(m[keys[j]])
    ensures ReadPairs(fields, |keys|, i, Restricted(m, keys[..i])) == Ok(Restricted(m, keys))
    decreases |keys| - i
  {
    hide HexEncode, ReadPairs, Restricted;
    if i == |keys| {
      assert keys[..i] == keys;
      ReadPairsEnd(fields, i, Restricted(m, keys));
    } else {
      RestrictedGrows(m, keys, i);
      ReadOnePair(fields, |keys|, i, Restricted(m, keys[..i]), keys[i], m[keys[i]]);
      ReadPairsBack(fields, keys, m, i + 1);
    }
  }

  /** Every pair of a map held in memory can be counted in 64 bits with room to spare. */
  predicate Storable(e: Event) {
    |e.fields| < 0x4000_0000_0000_0000 && Millis(e.at) < U64_LIMIT
  }

  /** How an event looks at the other end: its time is cut to milliseconds. */
  function WiredEvent(e: Event): Event {
    e.(at := Millis(e.at) * NANOS)
  }

  lemma {:induction false} FirstBadField(kinds: seq<Kind>, fields: Fields, i: nat)
    requires |kinds| == |fields| && i < |fields| && ReadItem(kinds[i], fields[i]).Err?
    requires forall j :: 0 <= j < i ==> ReadItem(kinds[j], fields[j]).Ok?
    ensures ReadItems(kinds, fields) == Err(ReadItem(kinds[i], fields[i]).error)
  {
    hide ReadItem;
    if i > 0 {
      FirstBadField(kinds[1..], fields[1..], i - 1);
    }
  }

  lemma EventHeadReads(e: Event)
    requires Storable(e)
    ensures |EventHead(e)| == |EVENT_KINDS| == 4
    ensures ReadItems(EVENT_KINDS, Texts(EventHead(e))) ==
            if Millis(e.at) < 0 then Err(InvalidNumber("event_timestamp"))
            else Ok([Hex(e.kind), Hex(e.summary), Num(Millis(e.at)), Num(|e.fields|)])
  {
    hide Texts, HexEncode, HexDecode, ParseU64, SignedDecimal, Decimal, ReadItems, Normals;
    var texts := Texts(EventHead(e));
    ParseSignedDecimal(Millis(e.at));
    if Millis(e.at) < 0 {
      ReadItemText(HexField, Hex(e.kind));
      ReadItemText(HexField, Hex(e.summary));
      FirstBadField(EVENT_KINDS, texts, 2);
    } else {
      var items := [Hex(e.kind), Hex(e.summary), Num(Millis(e.at)), Num(|e.fields|)];
      assert texts == Texts(items) by { PositiveHead(e, items); }
      ReadItemsTexts(EVENT_KINDS, items);
      NormalsKeep(items);
    }
  }

  lemma PositiveHead(e: Event, items: seq<Item>)
    requires Millis(e.at) >= 0
    requires items == [Hex(e.kind), Hex(e.summary), Num(Millis(e.at)), Num(|e.fields|)]
    ensures Texts(EventHead(e)) == Texts(items)
  {
    hide HexEncode, Decimal;
    SameTexts(EventHead(e), items);
  }

  /** decode_event inverts encode_event, up to milliseconds; an event of at least one whole
      millisecond before the epoch cannot be decoded at all. */
  lemma EventRoundTrip(event: Option<Event>)
    requires event.Some? ==> Storable(event.value)
    ensures DecodeEvent(EncodeEvent(event)) ==
            match event
            case None => Ok(None)
            case Some(e) => if Millis(e.at) < 0 then Err(InvalidNumber("event_timestamp")) else Ok(Some(WiredEvent(e)))
  {
    if event.Some? {
      hide Texts, ReadPairs, ReadItems, SortedKeys, PairItems, HexEncode, Millis, EventHead, ReadEvent;
      var e := event.value;
      var keys := SortedKeys(e.fields.Keys);
      var fields := EncodeRecord(EVENT_TAG, EventHead(e) + PairItems(keys, e.fields));
      EventHeadReads(e);
      EventSlices(EventHead(e), keys, e.fields);
      ReadEventBack(fields, e, keys);
    }
  }

  lemma ReadEventBack(fields: Fields, e: Event, keys: seq<bytes>)
    requires Storable(e) && keys == SortedKeys(e.fields.Keys)
    requires |fields| == 5 + 2 * |keys| && fields[0] == EVENT_TAG
    requires fields[1..5] == Texts(EventHead(e))
    requires forall j :: 0 <= j < |keys| ==>
               fields[5 + 2 * j] == HexEncode(keys[j]) && fields[6 + 2 * j] == HexEncode(e.fields[keys[j]])
    ensures ReadEvent(fields) ==
            if Millis(e.at) < 0 then Err(InvalidNumber("event_timestamp")) else Ok(Some(WiredEvent(e)))
  {
    hide Texts, ReadPairs, ReadItems, SortedKeys, HexEncode, Millis, EventHead;
    EventHeadReads(e);
    SortedKeysCount(e.fields.Keys);
    ReadPairsBack(fields, keys, e.fields, 0);
    assert keys[..0] == [] && Restricted(e.fields, []) == map[];
    assert Restricted(e.fields, keys) == e.fields;
  }

  lemma EventSlices(head: seq<Item>, keys: seq<bytes>, m: map<bytes, bytes>)
    requires |head| == 4 && forall k :: k in keys ==> k in m
    ensures var fields := EncodeRecord(EVENT_TAG, head + PairItems(keys, m));
            && |fields| == 5 + 2 * |keys| && fields[0] == EVENT_TAG
            && fields[1..5] == Texts(head)
            && forall j :: 0 <= j < |keys| ==>
                 fields[5 + 2 * j] == HexEncode(keys[j]) && fields[6 + 2 * j] == HexEncode(m[keys[j]])
  {
    hide Texts, PairItems, HexEncode;
    var pairs := PairItems(keys, m);
    var fields := EncodeRecord(EVENT_TAG, head + pairs);
    assert fields[1..5] == Texts(head);
    forall j | 0 <= j < |keys|
      ensures fields[5 + 2 * j] == HexEncode(keys[j]) && fields[6 + 2 * j] == HexEncode(m[keys[j]])
    {
      PairFields(head, keys, m, j);
    }
  }

  lemma PairFields(head: seq<Item>, keys: seq<bytes>, m: map<bytes, bytes>, j: nat)
    requires |head| == 4 && j < |keys| && forall k :: k in keys ==> k in m
    ensures var fields := EncodeRecord(EVENT_TAG, head + PairItems(keys, m));
            && |fields| == 5 + 2 * |keys|
            && fields[5 + 2 * j] == HexEncode(keys[j]) && fields[6 + 2 * j] == HexEncode(m[keys[j]])
  {
    hide Texts, PairItems, HexEncode;
    var pairs := PairItems(keys, m);
    assert (head + pairs)[4 + 2 * j] == pairs[2 * j];
    assert (head + pairs)[5 + 2 * j] == pairs[2 * j + 1];
  }

  lemma {:induction false} PairsHaveNoWords(keys: seq<bytes>, m: map<bytes, bytes>)
    requires forall k :: k in keys ==> k in m
    ensures PlainWords(PairItems(keys, m))
  {
    if keys != [] {
      PairsHaveNoWords(keys[1..], m);
      PlainWordsAppend([Hex(keys[0]), Hex(m[keys[0]])], PairItems(keys[1..], m));
    }
  }

  lemma PlainWordsAppend(a: seq<Item>, b: seq<Item>)
    requires PlainWords(a) && PlainWords(b)
    ensures PlainWords(a + b)
  {
  }

  lemma EventHeadSize(e: Event)
    ensures |EventHead(e)| == 4
  {
  }

  /** encode_event: one loop over the map's pairs. */
  method EncodeEventLine(e: Event) returns (fields: Fields)
    ensures [fields] == EncodeEvent(Some(e))
  {
    hide SortedKeys, HexEncode, SignedDecimal, Decimal, PairItems, Texts, EventHead, Millis, EncodeRecord;
    var keys := KeysInOrder(e.fields.Keys);
    ghost var whole := EncodeRecord(EVENT_TAG, EventHead(e) + PairItems(keys, e.fields));
    EventHeadSize(e);
    EventSlices(EventHead(e), keys, e.fields);
    fields := [EVENT_TAG, HexEncode(e.kind), HexEncode(e.summary), SignedDecimal(Millis(e.at)), Decimal(|e.fields|)];
    HeadFields(e, whole);
    for i := 0 to |keys|
      invariant fields == whole[..5 + 2 * i]
    {
      var key, value := HexEncode(keys[i]), HexEncode(e.fields[keys[i]]);
      SliceGrows(whole, 5 + 2 * i, key, value);
      fields := fields + [key];
      fields := fields + [value];
    }
    assert whole[..|whole|] == whole;
  }

  lemma SliceGrows(fields: Fields, n: nat, a: bytes, b: bytes)
    requires n + 2 <= |fields| && fields[n] == a && fields[n + 1] == b
    ensures fields[..n + 2] == fields[..n] + [a] + [b]
  {
  }

  lemma HeadFields(e: Event, whole: Fields)
    requires |whole| >= 5 && whole[0] == EVENT_TAG && whole[1..5] == Texts(EventHead(e))
    ensures whole[..5] ==
            [EVENT_TAG, HexEncode(e.kind), HexEncode(e.summary), SignedDecimal(Millis(e.at)), Decimal(|e.fields|)]
  {
    hide Texts, HexEncode, SignedDecimal, Decimal;
    var head := Texts(EventHead(e));
    assert whole[..5] == [whole[0]] + whole[1..5];
    assert head == [head[0], head[1], head[2], head[3]];
  }

  /** The field loop of decode_event. */
  method DecodePairs(fields: Fields, count: u64) returns (r: Result<map<bytes, bytes>>)
    ensures r == ReadPairs(fields, count, 0, map[])
  {
    var pairs: map<bytes, bytes> := map[];
    var i := 0;
    while i < count
      invariant 0 <= i <= count
      invariant ReadPairs(fields, count, 0, map[]) == ReadPairs(fields, count, i, pairs)
    {
      var key := StringAt(fields, KeyIndex(i), "event_field_key");
      var value := StringAt(fields, ValueIndex(i), "event_field_value");
      if key.Err? {
        return Err(key.error);
      }
      if value.Err? {
        return Err(value.error);
      }
      if key.value !in pairs {
        pairs := pairs[key.value := value.value];
      }
      i := i + 1;
    }
    return Ok(pairs);
  }

  /** Records that stand alone are read from exactly one line. */
  lemma OneLineOnly(lines: seq<Fields>)
    requires |lines| != 1
    ensures DecodePluginInfo(lines).Err? && DecodePluginInfo(lines).error.code == "invalid_plugin_info"
    ensures DecodeState(lines).Err? && DecodeState(lines).error.code == "invalid_connection_state"
    ensures DecodeServer(lines).Err? && DecodeServer(lines).error.code == "invalid_server_info"
    ensures DecodeEvent(lines).Err? && DecodeEvent(lines).error.code == "invalid_event_payload"
    ensures lines == [] || |lines| > 2 ==>
              DecodeApplication(lines).Err? && DecodeApplication(lines).error == INVALID_GROUP
  {
  }
}
