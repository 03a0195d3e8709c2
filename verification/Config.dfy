/** The INI configuration: the loader and writer of config/config_store.cpp and the second,
    lenient loader of cli/command_router.cpp. A file is its text. */
module Config {
  import opened Bytes
  import opened Wire

  datatype Profile = Profile(
    name: bytes, backend: bytes, host: bytes, port: u16, nickname: bytes, identity: bytes,
    serverPassword: bytes, channelPassword: bytes, defaultChannel: bytes, socketPath: bytes)

  datatype AppConfig = AppConfig(version: int, active: bytes, profiles: seq<Profile>)

  const MOCK: bytes := "mock"
  const FAKE: bytes := "fake"
  const PLUGIN: bytes := "plugin"
  const LOCALHOST: bytes := "127.0.0.1"
  const TERMINAL: bytes := "terminal"
  const LOBBY: bytes := "Lobby"
  const PLUGIN_LOCAL: bytes := "plugin-local"

  function NewProfile(name: bytes): Profile {
    Profile(name, MOCK, LOCALHOST, 9987, TERMINAL, [], [], [], LOBBY, [])
  }

  const DEFAULT_CONFIG: AppConfig :=
    AppConfig(1, PLUGIN_LOCAL,
              [NewProfile("mock-local").(identity := "mock-local-identity"),
               NewProfile(PLUGIN_LOCAL).(backend := PLUGIN, defaultChannel := [])])

  const NO_PROFILES: AppConfig := DEFAULT_CONFIG.(profiles := [])

  // ---------- Keys ----------

  datatype RootKey = VersionKey | ActiveKey

  datatype ProfileKey =
    | BackendKey | HostKey | PortKey | NicknameKey | IdentityKey | ServerPasswordKey | ChannelPasswordKey
    | DefaultChannelKey | SocketPathKey
    | LegacyKey

  const VERSION: bytes := "version"
  const ACTIVE: bytes := "active_profile"
  const BACKEND: bytes := "backend"
  const HOST: bytes := "host"
  const PORT: bytes := "port"
  const NICKNAME: bytes := "nickname"
  const IDENTITY: bytes := "identity"
  const SERVER_PASSWORD: bytes := "server_password"
  const CHANNEL_PASSWORD: bytes := "channel_password"
  const DEFAULT_CHANNEL: bytes := "default_channel"
  const SOCKET_PATH: bytes := "control_socket_path"
  const HEADLESS: bytes := "headless_audio"
  const RESOURCES: bytes := "sdk_resources_dir"
  const LIBRARY: bytes := "sdk_library_dir"

  function ReadRootKey(word: bytes): Option<RootKey> {
    if word == VERSION then Some(VersionKey) else if word == ACTIVE then Some(ActiveKey) else None
  }

  /** Legacy settings are accepted and ignored. */
  function ReadProfileKey(word: bytes): Option<ProfileKey> {
    if word == BACKEND then Some(BackendKey)
    else if word == HOST then Some(HostKey)
    else if word == PORT then Some(PortKey)
    else if word == NICKNAME then Some(NicknameKey)
    else if word == IDENTITY then Some(IdentityKey)
    else if word == SERVER_PASSWORD then Some(ServerPasswordKey)
    else if word == CHANNEL_PASSWORD then Some(ChannelPasswordKey)
    else if word == DEFAULT_CHANNEL then Some(DefaultChannelKey)
    else if word == SOCKET_PATH then Some(SocketPathKey)
    else if word == HEADLESS || word == RESOURCES || word == LIBRARY then Some(LegacyKey)
    else None
  }

  function RootWord(key: RootKey): bytes {
    match key
    case VersionKey => VERSION
    case ActiveKey => ACTIVE
  }

  function ProfileWord(key: ProfileKey): bytes {
    match key
    case BackendKey => BACKEND
    case HostKey => HOST
    case PortKey => PORT
    case NicknameKey => NICKNAME
    case IdentityKey => IDENTITY
    case ServerPasswordKey => SERVER_PASSWORD
    case ChannelPasswordKey => CHANNEL_PASSWORD
    case DefaultChannelKey => DEFAULT_CHANNEL
    case SocketPathKey => SOCKET_PATH
    case LegacyKey => HEADLESS
  }

  lemma WordShapes()
    ensures |VERSION| == |BACKEND| == 7 && |ACTIVE| == 14 && VERSION[0] == 'v' && BACKEND[0] == 'b'
    ensures |HOST| == |PORT| == 4 && HOST[0] == 'h' && PORT[0] == 'p'
    ensures |NICKNAME| == |IDENTITY| == 8 && NICKNAME[0] == 'n' && IDENTITY[0] == 'i'
    ensures |SERVER_PASSWORD| == |DEFAULT_CHANNEL| == 15 && SERVER_PASSWORD[0] == 's' && DEFAULT_CHANNEL[0] == 'd'
    ensures |CHANNEL_PASSWORD| == 16 && |SOCKET_PATH| == 19
    ensures |HEADLESS| == 14 && |RESOURCES| == 17 && |LIBRARY| == 15
  {
  }

  lemma RootKeyWords(key: RootKey)
    ensures ReadRootKey(RootWord(key)) == Some(key)
  {
    WordShapes();
  }

  lemma ProfileKeyWords(key: ProfileKey)
    ensures ReadProfileKey(ProfileWord(key)) == Some(key)
  {
    WordShapes();
  }

  // ---------- Errors ----------

  function ConfigError(code: bytes, message: bytes): Error {
    MakeError("config", code, message, ConfigExit)
  }

  const ON_LINE: bytes := " on line "
  const INVALID_ACTIVE: bytes := "invalid_active_profile"
  const INVALID_VERSION: bytes := "invalid_version"
  const UNSUPPORTED: bytes := "unsupported_version"
  const UNKNOWN_ROOT: bytes := "unknown_key"
  const UNKNOWN_PROFILE: bytes := "unknown_profile_key"
  const INVALID_PORT: bytes := "invalid_port"
  const INVALID_SECTION: bytes := "invalid_section"
  const INVALID_LINE: bytes := "invalid_line"
  const INVALID_NAME: bytes := "invalid_profile_name"
  const DUPLICATE_PROFILE: bytes := "duplicate_profile"
  const INVALID_BACKEND: bytes := "invalid_backend"
  const INVALID_HOST: bytes := "invalid_host"

  function LineSuffix(line: nat): bytes {
    if line == 0 then [] else ON_LINE + Decimal(line)
  }

  // ---------- Backends ----------

  predicate SupportedBackend(backend: bytes) {
    EqualsIgnoringCase(backend, MOCK) || EqualsIgnoringCase(backend, FAKE) || EqualsIgnoringCase(backend, PLUGIN)
  }

  function CanonicalBackend(backend: bytes): bytes {
    if EqualsIgnoringCase(backend, FAKE) || EqualsIgnoringCase(backend, MOCK) then MOCK
    else if EqualsIgnoringCase(backend, PLUGIN) then PLUGIN
    else backend
  }

  lemma LowerWords()
    ensures Lower(MOCK) == MOCK && Lower(FAKE) == FAKE && Lower(PLUGIN) == PLUGIN
    ensures MOCK != FAKE && MOCK != PLUGIN && FAKE != PLUGIN
  {
    assert |MOCK| == |FAKE| == 4 && |PLUGIN| == 6 && MOCK[0] != FAKE[0];
    assert forall i :: 0 <= i < 4 ==> Lower(MOCK)[i] == MOCK[i];
    assert forall i :: 0 <= i < 4 ==> Lower(FAKE)[i] == FAKE[i];
    assert forall i :: 0 <= i < 6 ==> Lower(PLUGIN)[i] == PLUGIN[i];
  }

  /** Canonical names are canonical, and supported exactly as the name they stand for. */
  lemma CanonicalBackendIsStable(backend: bytes)
    ensures CanonicalBackend(CanonicalBackend(backend)) == CanonicalBackend(backend)
    ensures SupportedBackend(CanonicalBackend(backend)) <==> SupportedBackend(backend)
    ensures SupportedBackend(backend) ==> CanonicalBackend(backend) in {MOCK, PLUGIN}
    ensures SupportedBackend(backend) ==> !EqualsIgnoringCase(CanonicalBackend(backend), FAKE)
  {
    hide Lower;
    LowerWords();
  }

  /** The names of the two backends, in any case, and the old name of the first one. */
  lemma BackendNames(backend: bytes)
    ensures SupportedBackend(backend) <==>
            EqualsIgnoringCase(backend, "mock") || EqualsIgnoringCase(backend, "fake") ||
            EqualsIgnoringCase(backend, "plugin")
    ensures EqualsIgnoringCase(backend, "mock") || EqualsIgnoringCase(backend, "fake") ==>
              CanonicalBackend(backend) == "mock"
    ensures EqualsIgnoringCase(backend, "plugin") ==> CanonicalBackend(backend) == "plugin"
    ensures !SupportedBackend(backend) ==> CanonicalBackend(backend) == backend
  {
    hide Lower;
    LowerWords();
  }

  // ---------- One setting ----------

  const BAD_VERSION: bytes := "invalid config version"
  const UNSUPPORTED_VERSION: bytes := "unsupported config version"
  const UNKNOWN_KEY: bytes := "unknown config key"
  const BAD_PORT: bytes := "invalid port in profile "
  const UNKNOWN_PROFILE_KEY: bytes := "unknown profile key in profile "

  /** apply_root_key */
  function ApplyRoot(c: AppConfig, word: bytes, value: bytes, line: nat): Result<AppConfig> {
    match ReadRootKey(word)
    case Some(VersionKey) =>
      var parsed := ParseU64(value);
      if parsed.None? then Err(ConfigError(INVALID_VERSION, BAD_VERSION + LineSuffix(line)))
      else if parsed.value > INT_MAX then
        Err(ConfigError(UNSUPPORTED, UNSUPPORTED_VERSION + LineSuffix(line) + ": " + value))
      else Ok(c.(version := parsed.value))
    case Some(ActiveKey) => Ok(c.(active := value))
    case None => Err(ConfigError(UNKNOWN_ROOT, UNKNOWN_KEY + LineSuffix(line) + ": " + word))
  }

  function LoadedBackend(value: bytes): bytes {
    if EqualsIgnoringCase(value, FAKE) then MOCK else value
  }

  /** apply_profile_key */
  function ApplyProfile(p: Profile, word: bytes, value: bytes, line: nat): Result<Profile> {
    match ReadProfileKey(word)
    case Some(BackendKey) => Ok(p.(backend := LoadedBackend(value)))
    case Some(HostKey) => Ok(p.(host := value))
    case Some(PortKey) =>
      var parsed := ParseU16(value);
      if parsed.None? then Err(ConfigError(INVALID_PORT, BAD_PORT + p.name + LineSuffix(line)))
      else Ok(p.(port := parsed.value))
    case Some(NicknameKey) => Ok(p.(nickname := value))
    case Some(IdentityKey) => Ok(p.(identity := value))
    case Some(ServerPasswordKey) => Ok(p.(serverPassword := value))
    case Some(ChannelPasswordKey) => Ok(p.(channelPassword := value))
    case Some(DefaultChannelKey) => Ok(p.(defaultChannel := value))
    case Some(SocketPathKey) => Ok(p.(socketPath := value))
    case Some(LegacyKey) => Ok(p)
    case None =>
      Err(ConfigError(UNKNOWN_PROFILE, UNKNOWN_PROFILE_KEY + p.name + LineSuffix(line) + ": " + word))
  }

  function LastProfile(c: AppConfig): Profile
    requires c.profiles != []
  {
    c.profiles[|c.profiles| - 1]
  }

  function WithLast(c: AppConfig, p: Profile): AppConfig
    requires c.profiles != []
  {
    c.(profiles := c.profiles[..|c.profiles| - 1] + [p])
  }

  /** A setting goes to the profile that was opened last, or to the root before the first one. */
  function Apply(c: AppConfig, word: bytes, value: bytes, line: nat): Result<AppConfig> {
    if c.profiles == [] then ApplyRoot(c, word, value, line)
    else
      var p :- ApplyProfile(LastProfile(c), word, value, line);
      Ok(WithLast(c, p))
  }

  // ---------- One line ----------

  /** Where settings were made, for error messages. */
  datatype ProfileLines = ProfileLines(section: nat, keys: map<bytes, nat>)
  datatype Loading = Loading(config: AppConfig, line: nat, root: map<bytes, nat>, profiles: seq<ProfileLines>)

  const START: Loading := Loading(NO_PROFILES, 0, map[], [])
  const PREFIX: bytes := "profile."
  const BAD_SECTION: bytes := "invalid section on line "
  const BAD_LINE: bytes := "expected key=value on line "

  function FindByte(s: bytes, c: byte): (r: Option<nat>)
    ensures r.None? <==> c !in s
    ensures r.Some? ==> r.value < |s| && s[r.value] == c && c !in s[..r.value]
  {
    if s == [] then None
    else if s[0] == c then Some(0)
    else
      match FindByte(s[1..], c)
      case None => None
      case Some(i) =>
        assert s[..i + 1] == [s[0]] + s[1..][..i];
        Some(i + 1)
  }

  predicate Skipped(t: bytes) {
    t == [] || t[0] == '#' || t[0] == ';'
  }

  predicate IsSection(t: bytes) {
    t != [] && t[0] == '[' && t[|t| - 1] == ']'
  }

  function SectionText(t: bytes): bytes
    requires IsSection(t)
  {
    assert |t| >= 2;
    t[1..|t| - 1]
  }

  predicate GoodSection(section: bytes) {
    PREFIX <= section && section != PREFIX
  }

  function Open(s: Loading, name: bytes, line: nat): Loading {
    s.(config := s.config.(profiles := s.config.profiles + [NewProfile(name)]),
       profiles := s.profiles + [ProfileLines(line, map[])], line := line)
  }

  function Note(s: Loading, key: bytes, line: nat): Loading {
    if s.profiles == [] then s.(root := s.root[key := line], line := line)
    else
      var last := s.profiles[|s.profiles| - 1];
      s.(profiles := s.profiles[..|s.profiles| - 1] + [last.(keys := last.keys[key := line])], line := line)
  }

  function TakeLine(s: Loading, text: bytes): Result<Loading> {
    var t, line := Trim(text), s.line + 1;
    if Skipped(t) then Ok(s.(line := line))
    else if IsSection(t) then
      var section := SectionText(t);
      if !GoodSection(section) then Err(ConfigError(INVALID_SECTION, BAD_SECTION + Decimal(line) + ": " + section))
      else Ok(Open(s, section[|PREFIX|..], line))
    else
      match FindByte(t, '=')
      case None => Err(ConfigError(INVALID_LINE, BAD_LINE + Decimal(line)))
      case Some(i) =>
        var key := Trim(t[..i]);
        var config :- Apply(s.config, key, Trim(t[i + 1..]), line);
        Ok(Note(s, key, line).(config := config))
  }

  function TakeLines(s: Loading, lines: seq<bytes>): Result<Loading>
    decreases |lines|
  {
    if lines == [] then Ok(s)
    else
      var next :- TakeLine(s, lines[0]);
      TakeLines(next, lines[1..])
  }

  // ---------- Validation ----------

  datatype Where = Where(root: map<bytes, nat>, profiles: seq<ProfileLines>)

  function RootLine(w: Where, key: bytes): nat {
    if key in w.root then w.root[key] else 0
  }

  function SectionLine(w: Where, i: nat): nat {
    if i < |w.profiles| then w.profiles[i].section else 0
  }

  function KeyLine(w: Where, i: nat, key: bytes): nat {
    if i < |w.profiles| && key in w.profiles[i].keys then w.profiles[i].keys[key] else 0
  }

  const EMPTY_NAME: bytes := "profile name cannot be empty"
  const DUPLICATE: bytes := "duplicate profile name"
  const BAD_BACKEND: bytes := "unsupported backend in profile "
  const EMPTY_HOST: bytes := "host cannot be empty in profile "
  const ZERO_PORT: bytes := "port cannot be 0 in profile "
  const MISSING_ACTIVE: bytes := "active_profile references missing profile"

  function CheckProfile(p: Profile, i: nat, seen: set<bytes>, w: Where): Result<()> {
    if Trim(p.name) == [] then Err(ConfigError(INVALID_NAME, EMPTY_NAME + LineSuffix(SectionLine(w, i))))
    else if p.name in seen then
      Err(ConfigError(DUPLICATE_PROFILE, DUPLICATE + LineSuffix(SectionLine(w, i)) + ": " + p.name))
    else if !SupportedBackend(p.backend) then
      Err(ConfigError(INVALID_BACKEND,
                      BAD_BACKEND + p.name + LineSuffix(KeyLine(w, i, BACKEND)) + ": " + p.backend))
    else if Trim(p.host) == [] then
      Err(ConfigError(INVALID_HOST, EMPTY_HOST + p.name + LineSuffix(KeyLine(w, i, HOST))))
    else if p.port == 0 then
      Err(ConfigError(INVALID_PORT, ZERO_PORT + p.name + LineSuffix(KeyLine(w, i, PORT))))
    else Ok(())
  }

  function CheckProfiles(c: AppConfig, i: nat, seen: set<bytes>, w: Where): Result<set<bytes>>
    decreases |c.profiles| - i
  {
    if i >= |c.profiles| then Ok(seen)
    else
      var _ :- CheckProfile(c.profiles[i], i, seen, w);
      CheckProfiles(c, i + 1, seen + {c.profiles[i].name}, w)
  }

  /** validate_config */
  function Validate(c: AppConfig, w: Where): Result<()> {
    if c.version != 1 then
      Err(ConfigError(UNSUPPORTED,
                      UNSUPPORTED_VERSION + LineSuffix(RootLine(w, VERSION)) + ": " + SignedDecimal(c.version)))
    else
      var seen :- CheckProfiles(c, 0, {}, w);
      if c.active !in seen then
        Err(ConfigError(INVALID_ACTIVE, MISSING_ACTIVE + LineSuffix(RootLine(w, ACTIVE)) + ": " + c.active))
      else Ok(())
  }

  /** The rules, whatever the order they are checked in. */
  predicate GoodProfile(p: Profile) {
    !Blank(p.name) && SupportedBackend(p.backend) && !Blank(p.host) && p.port != 0
  }

  predicate WithinRules(c: AppConfig) {
    && c.version == 1
    && (forall i :: 0 <= i < |c.profiles| ==> GoodProfile(c.profiles[i]))
    && (forall i, j :: 0 <= i < j < |c.profiles| ==> c.profiles[i].name != c.profiles[j].name)
  }

  predicate Named(c: AppConfig, name: bytes) {
    exists i :: 0 <= i < |c.profiles| && c.profiles[i].name == name
  }

  function Names(profiles: seq<Profile>): set<bytes> {
    set i | 0 <= i < |profiles| :: profiles[i].name
  }

  lemma ProfileCodes()
    ensures INVALID_ACTIVE !in {INVALID_NAME, DUPLICATE_PROFILE, INVALID_BACKEND, INVALID_HOST, INVALID_PORT}
    ensures INVALID_ACTIVE !in {UNSUPPORTED, INVALID_VERSION, UNKNOWN_ROOT, UNKNOWN_PROFILE,
                                INVALID_SECTION, INVALID_LINE}
  {
    assert |INVALID_ACTIVE| == 22;
  }

  lemma CheckProfileMeans(p: Profile, i: nat, seen: set<bytes>, w: Where)
    ensures CheckProfile(p, i, seen, w).Ok? <==> GoodProfile(p) && p.name !in seen
    ensures CheckProfile(p, i, seen, w).Err? ==> CheckProfile(p, i, seen, w).error.code != INVALID_ACTIVE
  {
    hide LineSuffix, SupportedBackend;
    TrimIsTrimmed(p.name);
    TrimIsTrimmed(p.host);
    ProfileCodes();
  }

  lemma {:induction false} CheckProfilesMeans(c: AppConfig, i: nat, seen: set<bytes>, w: Where)
    requires i <= |c.profiles|
    requires seen == Names(c.profiles[..i])
    requires forall a, b :: 0 <= a < b < i ==> c.profiles[a].name != c.profiles[b].name
    ensures CheckProfiles(c, i, seen, w).Ok? <==>
            (forall k :: i <= k < |c.profiles| ==> GoodProfile(c.profiles[k])) &&
            (forall a, b :: 0 <= a < b < |c.profiles| ==> c.profiles[a].name != c.profiles[b].name)
    ensures CheckProfiles(c, i, seen, w).Ok? ==> CheckProfiles(c, i, seen, w).value == Names(c.profiles)
    ensures CheckProfiles(c, i, seen, w).Err? ==> CheckProfiles(c, i, seen, w).error.code != INVALID_ACTIVE
    decreases |c.profiles| - i
  {
    hide CheckProfile, GoodProfile;
    if i < |c.profiles| {
      var p := c.profiles[i];
      CheckProfileMeans(p, i, seen, w);
      NamesGrow(c.profiles, i);
      if CheckProfile(p, i, seen, w).Ok? {
        forall a | 0 <= a < i ensures c.profiles[a].name != p.name {
          assert c.profiles[..i][a].name in Names(c.profiles[..i]);
        }
        CheckProfilesMeans(c, i + 1, seen + {p.name}, w);
      } else if p.name in seen {
        var a :| 0 <= a < i && c.profiles[..i][a].name == p.name;
        assert c.profiles[a].name == c.profiles[i].name;
      }
    } else {
      assert c.profiles[..i] == c.profiles;
    }
  }

  lemma NamesGrow(profiles: seq<Profile>, i: nat)
    requires i < |profiles|
    ensures Names(profiles[..i + 1]) == Names(profiles[..i]) + {profiles[i].name}
  {
    var shorter, longer := profiles[..i], profiles[..i + 1];
    forall n ensures n in Names(longer) <==> n in Names(shorter) + {profiles[i].name} {
      if n in Names(shorter) {
        var k :| 0 <= k < |shorter| && shorter[k].name == n;
        assert longer[k].name == n;
      }
      if n == profiles[i].name { assert longer[i].name == n; }
      if n in Names(longer) {
        var k :| 0 <= k < |longer| && longer[k].name == n;
        if k < i { assert shorter[k].name == n; }
      }
    }
  }

  /** validate_config accepts exactly the configurations within the rules whose active profile
      exists, and blames the active profile exactly when nothing else is wrong. */
  lemma ValidateMeans(c: AppConfig, w: Where)
    ensures Validate(c, w).Ok? <==> WithinRules(c) && Named(c, c.active)
    ensures Validate(c, w).Err? ==>
              (Validate(c, w).error.code == INVALID_ACTIVE <==> WithinRules(c) && !Named(c, c.active))
  {
    hide CheckProfiles, GoodProfile, LineSuffix, SignedDecimal;
    assert c.profiles[..0] == [] && Names([]) == {};
    CheckProfilesMeans(c, 0, {}, w);
    assert c.active in Names(c.profiles) <==> Named(c, c.active);
    ProfileCodes();
  }

  // ---------- Loading ----------

  /** What the lines of a file come to, before validation. */
  function Parse(text: bytes): Result<(AppConfig, Where)> {
    var s :- TakeLines(START, Lines(text));
    if s.config.profiles == [] then Ok((DEFAULT_CONFIG, Where(map[], [])))
    else Ok((s.config, Where(s.root, s.profiles)))
  }

  /** ConfigStore::load on a file that exists. */
  function Load(text: bytes): Result<AppConfig> {
    var (c, w) :- Parse(text);
    var _ :- Validate(c, w);
    Ok(c)
  }

  /** load_or_default, with None for a file that does not exist. */
  function LoadOrDefault(file: Option<bytes>): Result<AppConfig> {
    if file.None? then Ok(DEFAULT_CONFIG) else Load(file.value)
  }

  // ---------- What each line does ----------

  /** A section line opens a profile with these settings, whatever was before. */
  lemma SectionMeans(s: Loading, text: bytes, name: bytes)
    requires Trim(text) == "[profile." + name + "]" && name != []
    ensures var r := TakeLine(s, text);
            && r.Ok? && r.value.line == s.line + 1
            && r.value.config == s.config.(profiles := s.config.profiles +
                 [Profile(name, "mock", "127.0.0.1", 9987, "terminal", [], [], [], "Lobby", [])])
            && r.value.profiles == s.profiles + [ProfileLines(s.line + 1, map[])]
  {
    var t := Trim(text);
    assert PREFIX == "profile." && |PREFIX| == 8;
    assert t[1..|t| - 1] == PREFIX + name;
    assert (PREFIX + name)[|PREFIX|..] == name;
  }

  /** Lines that are passed over, lines that are refused as such, and the message that says where. */
  lemma LineMeans(s: Loading, text: bytes)
    ensures var t, r, line := Trim(text), TakeLine(s, text), s.line + 1;
            var passed := t == [] || t[0] == '#' || t[0] == ';';
            var section := !passed && t[0] == '[' && t[|t| - 1] == ']';
            && (passed ==> r == Ok(s.(line := line)))
            && (section && (|t| <= 10 || t[1..9] != "profile.") ==>
                  r == Err(MakeError("config", "invalid_section",
                                     "invalid section on line " + Decimal(line) + ": " + t[1..|t| - 1], ConfigExit)))
            && (!passed && !section && '=' !in t ==>
                  r == Err(MakeError("config", "invalid_line",
                                     "expected key=value on line " + Decimal(line), ConfigExit)))
            && (r.Ok? ==> r.value.line == line)
  {
    hide Trim, Apply;
    var t := Trim(text);
    assert PREFIX == "profile." && |PREFIX| == 8;
    if IsSection(t) && PREFIX <= SectionText(t) {
      assert t[1..9] == SectionText(t)[..8];
    }
    if IsSection(t) && |t| > 10 && t[1..9] == "profile." {
      assert SectionText(t)[..8] == t[1..9];
    }
  }

  /** A setting is what stands on either side of the first equals sign, without the white space
      around it; it goes to the last profile, or to the root if there is none. */
  lemma SettingMeans(s: Loading, text: bytes, key: bytes, value: bytes)
    requires Trim(text) == key + ['='] + value && '=' !in key
    requires !Skipped(Trim(text)) && !IsSection(Trim(text))
    ensures var r := TakeLine(s, text);
            var applied :=
              if s.config.profiles == [] then ApplyRoot(s.config, Trim(key), Trim(value), s.line + 1)
              else
                var last := s.config.profiles[|s.config.profiles| - 1];
                var p := ApplyProfile(last, Trim(key), Trim(value), s.line + 1);
                if p.Err? then Err(p.error)
                else Ok(s.config.(profiles := s.config.profiles[..|s.config.profiles| - 1] + [p.value]));
            if applied.Err? then r == Err(applied.error) else r.Ok? && r.value.config == applied.value
  {
    hide Trim, ApplyRoot, ApplyProfile, Skipped, IsSection;
    var t := Trim(text);
    FindFirst(key, '=', value);
    assert t[..|key|] == key && t[|key| + 1..] == value;
  }

  /** What each root key accepts, and every other one is unknown. */
  lemma RootKeyMeans(c: AppConfig, word: bytes, value: bytes, line: nat)
    ensures var r := ApplyRoot(c, word, value, line);
            && (word == "active_profile" ==> r == Ok(c.(active := value)))
            && (word == "version" && ParseU64(value).None? ==> r.Err? && r.error.code == "invalid_version")
            && (word == "version" && ParseU64(value).Some? ==>
                  if ParseU64(value).value <= 2147483647 then r == Ok(c.(version := ParseU64(value).value))
                  else r.Err? && r.error.code == "unsupported_version")
            && (word != "version" && word != "active_profile" ==> r.Err? && r.error.code == "unknown_key")
  {
    hide ParseU64, LineSuffix;
    WordShapes();
  }

  /** What each key of a profile accepts, and every other one is unknown. */
  lemma ProfileKeyMeans(p: Profile, word: bytes, value: bytes, line: nat)
    ensures var r := ApplyProfile(p, word, value, line);
            && (word == "backend" ==>
                  r == Ok(p.(backend := if EqualsIgnoringCase(value, "fake") then "mock" else value)))
            && (word == "host" ==> r == Ok(p.(host := value)))
            && (word == "port" ==>
                  if ParseU16(value).Some? then r == Ok(p.(port := ParseU16(value).value))
                  else r.Err? && r.error.code == "invalid_port")
            && (word == "nickname" ==> r == Ok(p.(nickname := value)))
            && (word == "identity" ==> r == Ok(p.(identity := value)))
            && (word == "server_password" ==> r == Ok(p.(serverPassword := value)))
            && (word == "channel_password" ==> r == Ok(p.(channelPassword := value)))
            && (word == "default_channel" ==> r == Ok(p.(defaultChannel := value)))
            && (word == "control_socket_path" ==> r == Ok(p.(socketPath := value)))
  {
    hide ParseU16, LineSuffix, EqualsIgnoringCase;
    WordShapes();
  }

  const PROFILE_KEYS: seq<bytes> :=
    ["backend", "host", "port", "nickname", "identity", "server_password", "channel_password", "default_channel",
     "control_socket_path", "headless_audio", "sdk_resources_dir", "sdk_library_dir"]

  lemma LegacyKeysAreIgnored(p: Profile, word: bytes, value: bytes, line: nat)
    ensures var r := ApplyProfile(p, word, value, line);
            && (word in ["headless_audio", "sdk_resources_dir", "sdk_library_dir"] ==> r == Ok(p))
            && (word !in PROFILE_KEYS ==> r.Err? && r.error.code == "unknown_profile_key")
  {
    hide ParseU16, LineSuffix, EqualsIgnoringCase;
    WordShapes();
  }

  /** The line of a setting is remembered for the profile it was made in, and for no other. */
  lemma SettingsAreLocated(s: Loading, key: bytes, line: nat)
    ensures var t := Note(s, key, line);
            && |t.profiles| == |s.profiles|
            && (s.profiles == [] ==> RootLine(Where(t.root, t.profiles), key) == line)
            && (s.profiles != [] ==> KeyLine(Where(t.root, t.profiles), |s.profiles| - 1, key) == line)
            && (forall i, other :: 0 <= i < |s.profiles| && (i < |s.profiles| - 1 || other != key) ==>
                  KeyLine(Where(t.root, t.profiles), i, other) == KeyLine(Where(s.root, s.profiles), i, other))
            && (forall i :: 0 <= i < |s.profiles| ==>
                  SectionLine(Where(t.root, t.profiles), i) == SectionLine(Where(s.root, s.profiles), i))
  {
  }

  /** How an error says where a setting was made, if it was made in the file. */
  lemma LineSuffixMeans(line: nat)
    ensures LineSuffix(line) == if line == 0 then [] else " on line " + Decimal(line)
  {
  }

  function Fault(code: bytes, message: bytes): Result<()> {
    Err(MakeError("config", code, message, ConfigExit))
  }

  /** Which rule a profile breaks first, and what is said about it. */
  lemma ProfileFaults(p: Profile, i: nat, seen: set<bytes>, w: Where)
    ensures CheckProfile(p, i, seen, w) ==
            if Blank(p.name) then
              Fault("invalid_profile_name", "profile name cannot be empty" + LineSuffix(SectionLine(w, i)))
            else if p.name in seen then
              Fault("duplicate_profile", "duplicate profile name" + LineSuffix(SectionLine(w, i)) + ": " + p.name)
            else if !SupportedBackend(p.backend) then
              Fault("invalid_backend", "unsupported backend in profile " + p.name +
                                       LineSuffix(KeyLine(w, i, "backend")) + ": " + p.backend)
            else if Blank(p.host) then
              Fault("invalid_host", "host cannot be empty in profile " + p.name + LineSuffix(KeyLine(w, i, "host")))
            else if p.port == 0 then
              Fault("invalid_port", "port cannot be 0 in profile " + p.name + LineSuffix(KeyLine(w, i, "port")))
            else Ok(())
  {
    hide LineSuffix, SupportedBackend, Trim, Blank, KeyLine, SectionLine;
    TrimIsTrimmed(p.name);
    TrimIsTrimmed(p.host);
  }

  /** What is said about the version, and about the active profile once all else is right. */
  lemma ConfigFaults(c: AppConfig, w: Where)
    ensures c.version != 1 ==>
              Validate(c, w) ==
              Fault("unsupported_version", "unsupported config version" + LineSuffix(RootLine(w, "version")) + ": " +
                                           SignedDecimal(c.version))
    ensures WithinRules(c) && !Named(c, c.active) ==>
              Validate(c, w) ==
              Fault("invalid_active_profile", "active_profile references missing profile" +
                                              LineSuffix(RootLine(w, "active_profile")) + ": " + c.active)
  {
    hide LineSuffix, RootLine, WithinRules, Named, CheckProfiles;
    ValidateMeans(c, w);
    VersionIsOne(c);
    CheckProfilesOk(c, w);
  }

  lemma VersionIsOne(c: AppConfig)
    ensures WithinRules(c) ==> c.version == 1
  {
  }

  lemma CheckProfilesOk(c: AppConfig, w: Where)
    ensures WithinRules(c) ==> CheckProfiles(c, 0, {}, w).Ok?
  {
    hide CheckProfiles, GoodProfile;
    assert c.profiles[..0] == [];
    assert Names([]) == {};
    CheckProfilesMeans(c, 0, {}, w);
  }

  lemma {:induction false} FirstFault(c: AppConfig, i: nat, seen: set<bytes>, w: Where)
    requires i <= |c.profiles| && CheckProfiles(c, i, seen, w).Err?
    ensures exists k :: i <= k < |c.profiles| &&
              (forall j :: i <= j < k ==> GoodProfile(c.profiles[j])) &&
              CheckProfiles(c, i, seen, w).error == FaultOf(c, k, seen + Names(c.profiles[i..k]), w)
    decreases |c.profiles| - i
  {
    hide CheckProfile, GoodProfile;
    CheckProfileMeans(c.profiles[i], i, seen, w);
    if CheckProfile(c.profiles[i], i, seen, w).Err? {
      assert c.profiles[i..i] == [];
      assert seen + Names([]) == seen;
      assert CheckProfiles(c, i, seen, w).error == FaultOf(c, i, seen + Names(c.profiles[i..i]), w);
    } else {
      var more := seen + {c.profiles[i].name};
      FirstFault(c, i + 1, more, w);
      var k :| i + 1 <= k < |c.profiles| &&
               (forall j :: i + 1 <= j < k ==> GoodProfile(c.profiles[j])) &&
               CheckProfiles(c, i + 1, more, w).error == FaultOf(c, k, more + Names(c.profiles[i + 1..k]), w);
      NamesFirst(c.profiles[i..k]);
      assert c.profiles[i..k][1..] == c.profiles[i + 1..k];
      assert more + Names(c.profiles[i + 1..k]) == seen + Names(c.profiles[i..k]);
    }
  }

  function FaultOf(c: AppConfig, k: nat, seen: set<bytes>, w: Where): Error {
    if k < |c.profiles| && CheckProfile(c.profiles[k], k, seen, w).Err? then
      CheckProfile(c.profiles[k], k, seen, w).error
    else ConfigError([], [])
  }

  lemma NamesFirst(profiles: seq<Profile>)
    requires profiles != []
    ensures Names(profiles) == {profiles[0].name} + Names(profiles[1..])
  {
    forall n ensures n in Names(profiles) <==> n in {profiles[0].name} + Names(profiles[1..]) {
      if n in Names(profiles) {
        var i :| 0 <= i < |profiles| && profiles[i].name == n;
        assert i > 0 ==> profiles[1..][i - 1].name == n;
      }
      if n in Names(profiles[1..]) {
        var i :| 0 <= i < |profiles[1..]| && profiles[1..][i].name == n;
        assert profiles[i + 1].name == n;
      }
    }
  }

  /** A configuration of an unknown version is refused as such; of a known one, for the first
      profile that breaks a rule, all before it being good, and for that rule. */
  lemma FirstFaultIsBlamed(c: AppConfig, w: Where)
    requires Validate(c, w).Err?
    ensures c.version != 1 <==> Validate(c, w).error.code == "unsupported_version"
    ensures c.version == 1 && Validate(c, w).error.code != "invalid_active_profile" ==>
              exists k :: 0 <= k < |c.profiles| &&
                (forall j :: 0 <= j < k ==> GoodProfile(c.profiles[j])) &&
                Validate(c, w).error == FaultOf(c, k, Names(c.profiles[..k]), w)
  {
    hide CheckProfile, GoodProfile, LineSuffix;
    if c.version == 1 {
      FaultCodes(c, w);
      if CheckProfiles(c, 0, {}, w).Err? {
        FirstFault(c, 0, {}, w);
        var k :| 0 <= k < |c.profiles| && (forall j :: 0 <= j < k ==> GoodProfile(c.profiles[j])) &&
                 CheckProfiles(c, 0, {}, w).error == FaultOf(c, k, {} + Names(c.profiles[0..k]), w);
        assert {} + Names(c.profiles[0..k]) == Names(c.profiles[..k]);
      }
    }
  }

  lemma FaultCodes(c: AppConfig, w: Where)
    ensures CheckProfiles(c, 0, {}, w).Err? ==> CheckProfiles(c, 0, {}, w).error.code != UNSUPPORTED
    ensures INVALID_ACTIVE != UNSUPPORTED
  {
    hide CheckProfile, LineSuffix;
    assert |INVALID_ACTIVE| == 22 && |UNSUPPORTED| == 19;
    if CheckProfiles(c, 0, {}, w).Err? {
      FaultsAreNotVersions(c, 0, {}, w);
    }
  }

  lemma {:induction false} FaultsAreNotVersions(c: AppConfig, i: nat, seen: set<bytes>, w: Where)
    requires i <= |c.profiles| && CheckProfiles(c, i, seen, w).Err?
    ensures CheckProfiles(c, i, seen, w).error.code != UNSUPPORTED
    decreases |c.profiles| - i
  {
    hide CheckProfile, SupportedBackend, Blank;
    ProfileFaults(c.profiles[i], i, seen, w);
    assert |UNSUPPORTED| == 19;
    if CheckProfile(c.profiles[i], i, seen, w).Ok? {
      FaultsAreNotVersions(c, i + 1, seen + {c.profiles[i].name}, w);
    }
  }

  /** Without a file, or with one that has no profile, there are two profiles to start from. */
  lemma DefaultsAreValid(text: bytes)
    ensures LoadOrDefault(None) == Ok(DEFAULT_CONFIG)
    ensures Parse(text).Ok? ==> Parse(text).value.0.profiles != []
    ensures Validate(DEFAULT_CONFIG, Where(map[], [])).Ok?
    ensures DEFAULT_CONFIG.active == "plugin-local" && |DEFAULT_CONFIG.profiles| == 2
    ensures DEFAULT_CONFIG.profiles[0].name == "mock-local" && DEFAULT_CONFIG.profiles[0].backend == "mock"
    ensures DEFAULT_CONFIG.profiles[1].name == "plugin-local" && DEFAULT_CONFIG.profiles[1].backend == "plugin"
  {
    hide TakeLines, Lines, Lower, Validate;
    DefaultsAreGood();
    ValidateMeans(DEFAULT_CONFIG, Where(map[], []));
  }

  lemma DefaultsAreGood()
    ensures WithinRules(DEFAULT_CONFIG) && Named(DEFAULT_CONFIG, DEFAULT_CONFIG.active)
  {
    hide Lower;
    var c := DEFAULT_CONFIG;
    LowerWords();
    assert c.profiles[0].name[0] == 'm' && c.profiles[1].name[0] == 'p';
    assert LOCALHOST[0] == '1' && !IsSpace('1') && !IsSpace('m') && !IsSpace('p');
    assert c.profiles[1].name == c.active;
  }

  // ---------- Writing ----------

  function Setting(word: bytes, value: bytes): bytes {
    word + ['='] + value
  }

  function ProfileText(p: Profile): seq<bytes> {
    [[], ['['] + PREFIX + p.name + [']'],
     Setting(BACKEND, CanonicalBackend(p.backend)), Setting(HOST, p.host), Setting(PORT, Decimal(p.port)),
     Setting(NICKNAME, p.nickname), Setting(IDENTITY, p.identity), Setting(SERVER_PASSWORD, p.serverPassword),
     Setting(CHANNEL_PASSWORD, p.channelPassword), Setting(DEFAULT_CHANNEL, p.defaultChannel),
     Setting(SOCKET_PATH, p.socketPath)]
  }

  function ProfilesText(profiles: seq<Profile>): seq<bytes> {
    if profiles == [] then [] else ProfileText(profiles[0]) + ProfilesText(profiles[1..])
  }

  function ConfigText(c: AppConfig): seq<bytes> {
    [Setting(VERSION, SignedDecimal(c.version)), Setting(ACTIVE, c.active)] + ProfilesText(c.profiles)
  }

  /** render_config */
  function RenderConfig(c: AppConfig): bytes {
    Terminated(ConfigText(c))
  }

  function CanonicalProfile(p: Profile): Profile {
    p.(backend := CanonicalBackend(p.backend))
  }

  function CanonicalProfiles(profiles: seq<Profile>): (r: seq<Profile>)
    ensures |r| == |profiles| && forall i :: 0 <= i < |r| ==> r[i] == CanonicalProfile(profiles[i])
  {
    if profiles == [] then [] else [CanonicalProfile(profiles[0])] + CanonicalProfiles(profiles[1..])
  }

  function Canonical(c: AppConfig): AppConfig {
    c.(profiles := CanonicalProfiles(c.profiles))
  }

  // ---------- What loading yields can be written down ----------

  /** A value that a line can hold. */
  predicate Clean(s: bytes) {
    Trimmed(s) && '\n' !in s
  }

  predicate CleanProfile(p: Profile) {
    && '\n' !in p.name && p.name != [] && Clean(p.backend) && Clean(p.host) && Clean(p.nickname) && Clean(p.identity)
    && Clean(p.serverPassword) && Clean(p.channelPassword) && Clean(p.defaultChannel) && Clean(p.socketPath)
  }

  predicate CleanConfig(c: AppConfig) {
    Clean(c.active) && forall i :: 0 <= i < |c.profiles| ==> CleanProfile(c.profiles[i])
  }

  lemma WordsAreClean()
    ensures Clean(MOCK) && Clean(LOCALHOST) && Clean(TERMINAL) && Clean(LOBBY) && Clean(PLUGIN) && Clean(PLUGIN_LOCAL)
    ensures Clean([])
  {
  }

  lemma DefaultIsClean()
    ensures CleanConfig(DEFAULT_CONFIG) && CleanConfig(NO_PROFILES)
  {
    WordsAreClean();
    var mock, plugin := DEFAULT_CONFIG.profiles[0], DEFAULT_CONFIG.profiles[1];
    assert Clean("mock-local-identity");
    assert CleanProfile(mock) && CleanProfile(plugin);
  }

  lemma ApplyStaysClean(c: AppConfig, word: bytes, value: bytes, line: nat)
    requires CleanConfig(c) && Clean(value)
    ensures Apply(c, word, value, line).Ok? ==> CleanConfig(Apply(c, word, value, line).value)
  {
    hide Clean, LineSuffix, ReadProfileKey, ReadRootKey;
    WordsAreClean();
    if c.profiles != [] && ApplyProfile(LastProfile(c), word, value, line).Ok? {
      var p, q := LastProfile(c), ApplyProfile(LastProfile(c), word, value, line).value;
      assert CleanProfile(p);
      assert CleanProfile(q);
    }
  }

  lemma NewProfileIsClean(name: bytes)
    requires '\n' !in name && name != []
    ensures CleanProfile(NewProfile(name))
  {
    hide Clean;
    WordsAreClean();
  }

  lemma TakeLineStaysClean(s: Loading, text: bytes)
    requires CleanConfig(s.config) && '\n' !in text
    ensures TakeLine(s, text).Ok? ==> CleanConfig(TakeLine(s, text).value.config)
  {
    hide Apply, Note, LineSuffix, CleanProfile, Decimal;
    var t := Trim(text);
    TrimIsTrimmed(text);
    if Skipped(t) {
    } else if IsSection(t) {
      var section := SectionText(t);
      if GoodSection(section) {
        var name := section[|PREFIX|..];
        assert forall c :: c in name ==> c in t;
        NewProfileIsClean(name);
      }
    } else {
      var i := FindByte(t, '=');
      if i.Some? {
        TrimIsTrimmed(t[i.value + 1..]);
        ApplyStaysClean(s.config, Trim(t[..i.value]), Trim(t[i.value + 1..]), s.line + 1);
      }
    }
  }

  lemma {:induction false} TakeLinesStayClean(s: Loading, lines: seq<bytes>)
    requires CleanConfig(s.config) && AllFree(lines, '\n')
    ensures TakeLines(s, lines).Ok? ==> CleanConfig(TakeLines(s, lines).value.config)
    decreases |lines|
  {
    hide TakeLine, CleanConfig;
    if lines != [] {
      TakeLineStaysClean(s, lines[0]);
      if TakeLine(s, lines[0]).Ok? {
        TakeLinesStayClean(TakeLine(s, lines[0]).value, lines[1..]);
      }
    }
  }

  lemma LoadedIsClean(text: bytes)
    ensures Parse(text).Ok? ==> CleanConfig(Parse(text).value.0)
  {
    hide TakeLines, CleanConfig;
    DefaultIsClean();
    TakeLinesStayClean(START, Lines(text));
  }

  // ---------- Reading what was written ----------

  /** A written line, before it is text. */
  datatype Edit = Gap | Section(name: bytes) | SetRoot(root: RootKey, value: bytes) | Set(key: ProfileKey, value: bytes)

  function EditLine(e: Edit): bytes {
    match e
    case Gap => []
    case Section(name) => ['['] + PREFIX + name + [']']
    case SetRoot(root, value) => Setting(RootWord(root), value)
    case Set(key, value) => Setting(ProfileWord(key), value)
  }

  function EditLines(es: seq<Edit>): (r: seq<bytes>)
    ensures |r| == |es| && forall i :: 0 <= i < |r| ==> r[i] == EditLine(es[i])
  {
    if es == [] then [] else [EditLine(es[0])] + EditLines(es[1..])
  }

  predicate CleanEdit(e: Edit) {
    match e
    case Gap => true
    case Section(name) => name != [] && '\n' !in name
    case SetRoot(_, value) => Clean(value)
    case Set(_, value) => Clean(value)
  }

  /** What the line does to the configuration. */
  function Effect(c: AppConfig, e: Edit): Result<AppConfig> {
    match e
    case Gap => Ok(c)
    case Section(name) => Ok(c.(profiles := c.profiles + [NewProfile(name)]))
    case SetRoot(root, value) => Apply(c, RootWord(root), value, 0)
    case Set(key, value) => Apply(c, ProfileWord(key), value, 0)
  }

  function Effects(c: AppConfig, es: seq<Edit>): Result<AppConfig>
    decreases |es|
  {
    if es == [] then Ok(c)
    else
      var d :- Effect(c, es[0]);
      Effects(d, es[1..])
  }

  /** A word that can stand before '=' on a line. */
  predicate SettingWord(w: bytes) {
    w != [] && Trimmed(w) && '=' !in w && '\n' !in w && w[0] != '#' && w[0] != ';' && w[0] != '['
  }

  lemma RootWordsFit(key: RootKey)
    ensures SettingWord(RootWord(key))
  {
  }

  lemma ProfileWordsFit(key: ProfileKey)
    ensures SettingWord(ProfileWord(key))
  {
  }

  lemma {:induction false} FindFirst(before: bytes, c: byte, after: bytes)
    requires c !in before
    ensures FindByte(before + [c] + after, c) == Some(|before|)
  {
    if before != [] {
      assert (before + [c] + after)[1..] == before[1..] + [c] + after;
      FindFirst(before[1..], c, after);
    }
  }

  lemma SettingLine(w: bytes, value: bytes)
    requires SettingWord(w) && Clean(value)
    ensures var t := Setting(w, value);
            && Trim(t) == t && !Skipped(t) && !IsSection(t) && FindByte(t, '=') == Some(|w|)
            && Trim(t[..|w|]) == w && Trim(t[|w| + 1..]) == value
            && '\n' !in t
  {
    var t := Setting(w, value);
    assert t[..|w|] == w && t[|w| + 1..] == value && t[0] == w[0];
    FindFirst(w, '=', value);
    TrimFixesTrimmed(t);
    TrimFixesTrimmed(w);
    TrimFixesTrimmed(value);
  }

  lemma ApplyIgnoresLine(c: AppConfig, word: bytes, value: bytes, line: nat)
    requires Apply(c, word, value, 0).Ok?
    ensures Apply(c, word, value, line) == Apply(c, word, value, 0)
  {
    hide ReadProfileKey, ReadRootKey;
  }

  lemma EditIsTaken(s: Loading, e: Edit)
    requires CleanEdit(e) && Effect(s.config, e).Ok?
    ensures TakeLine(s, EditLine(e)).Ok? && TakeLine(s, EditLine(e)).value.config == Effect(s.config, e).value
  {
    hide TakeLine, Apply, RootWord, ProfileWord, Setting, Open;
    match e
    case Gap => GapIsTaken(s);
    case Section(name) =>
      SectionIsTaken(s, name);
      OpenedConfig(s, name);
    case SetRoot(root, value) =>
      RootWordsFit(root);
      SettingIsTaken(s, RootWord(root), value);
    case Set(key, value) =>
      ProfileWordsFit(key);
      SettingIsTaken(s, ProfileWord(key), value);
  }

  lemma OpenedConfig(s: Loading, name: bytes)
    ensures Open(s, name, s.line + 1).config == s.config.(profiles := s.config.profiles + [NewProfile(name)])
  {
  }

  lemma SettingIsTaken(s: Loading, w: bytes, value: bytes)
    requires SettingWord(w) && Clean(value) && Apply(s.config, w, value, 0).Ok?
    ensures TakeLine(s, Setting(w, value)).Ok?
    ensures TakeLine(s, Setting(w, value)).value.config == Apply(s.config, w, value, 0).value
  {
    hide Apply, Note, Setting, SettingWord, Clean, Decimal;
    SettingLine(w, value);
    ApplyIgnoresLine(s.config, w, value, s.line + 1);
  }

  lemma GapIsTaken(s: Loading)
    ensures TakeLine(s, []) == Ok(s.(line := s.line + 1))
  {
  }

  lemma SectionIsTaken(s: Loading, name: bytes)
    requires name != []
    ensures TakeLine(s, ['['] + PREFIX + name + [']']) == Ok(Open(s, name, s.line + 1))
  {
    hide Apply, Open, Decimal;
    var t := ['['] + PREFIX + name + [']'];
    assert t[0] == '[' && t[|t| - 1] == ']';
    TrimFixesTrimmed(t);
    assert SectionText(t) == PREFIX + name;
    assert (PREFIX + name)[|PREFIX|..] == name;
  }

  lemma {:induction false} EditsAreTaken(s: Loading, es: seq<Edit>)
    requires forall i :: 0 <= i < |es| ==> CleanEdit(es[i])
    requires Effects(s.config, es).Ok?
    ensures TakeLines(s, EditLines(es)).Ok?
    ensures TakeLines(s, EditLines(es)).value.config == Effects(s.config, es).value
    decreases |es|
  {
    if es != [] {
      hide TakeLine, EditLine, Effect, CleanEdit;
      EditIsTaken(s, es[0]);
      assert EditLines(es)[0] == EditLine(es[0]) && EditLines(es)[1..] == EditLines(es[1..]);
      EditsAreTaken(TakeLine(s, EditLine(es[0])).value, es[1..]);
    }
  }

  lemma {:induction false} EffectsAppend(c: AppConfig, a: seq<Edit>, b: seq<Edit>)
    requires Effects(c, a).Ok?
    ensures Effects(c, a + b) == Effects(Effects(c, a).value, b)
    decreases |a|
  {
    hide Effect;
    if a == [] {
      assert a + b == b;
    } else {
      assert (a + b)[1..] == a[1..] + b;
      EffectsAppend(Effect(c, a[0]).value, a[1..], b);
    }
  }

  function ProfileEdits(p: Profile): seq<Edit> {
    [Gap, Section(p.name), Set(BackendKey, CanonicalBackend(p.backend)), Set(HostKey, p.host),
     Set(PortKey, Decimal(p.port)), Set(NicknameKey, p.nickname), Set(IdentityKey, p.identity),
     Set(ServerPasswordKey, p.serverPassword), Set(ChannelPasswordKey, p.channelPassword),
     Set(DefaultChannelKey, p.defaultChannel), Set(SocketPathKey, p.socketPath)]
  }

  function ProfilesEdits(profiles: seq<Profile>): seq<Edit> {
    if profiles == [] then [] else ProfileEdits(profiles[0]) + ProfilesEdits(profiles[1..])
  }

  /** A setting of the profile being edited. */
  lemma SetEffect(c: AppConfig, p: Profile, q: Profile, key: ProfileKey, value: bytes)
    requires c.profiles != [] && LastProfile(c) == p
    requires ApplyProfile(p, ProfileWord(key), value, 0) == Ok(q)
    ensures Effect(c, Set(key, value)) == Ok(WithLast(c, q))
  {
    hide ReadProfileKey, ReadRootKey, ProfileWord;
  }

  lemma ApplyByKey(p: Profile, key: ProfileKey, value: bytes)
    ensures ApplyProfile(p, ProfileWord(key), value, 0) ==
            match key
            case BackendKey => Ok(p.(backend := LoadedBackend(value)))
            case HostKey => Ok(p.(host := value))
            case PortKey =>
              if ParseU16(value).None? then Err(ConfigError(INVALID_PORT, BAD_PORT + p.name))
                else Ok(p.(port := ParseU16(value).value))
            case NicknameKey => Ok(p.(nickname := value))
            case IdentityKey => Ok(p.(identity := value))
            case ServerPasswordKey => Ok(p.(serverPassword := value))
            case ChannelPasswordKey => Ok(p.(channelPassword := value))
            case DefaultChannelKey => Ok(p.(defaultChannel := value))
            case SocketPathKey => Ok(p.(socketPath := value))
            case LegacyKey => Ok(p)
  {
    hide ReadProfileKey, ProfileWord, ParseU16, LoadedBackend;
    ProfileKeyWords(key);
  }

  /** The profile as far as its first `n` settings are read. */
  function Partly(p: Profile, n: nat): Profile {
    var q := NewProfile(p.name);
    if n == 0 then q
    else if n == 1 then q.(backend := CanonicalBackend(p.backend))
    else if n == 2 then Partly(p, 1).(host := p.host)
    else if n == 3 then Partly(p, 2).(port := p.port)
    else if n == 4 then Partly(p, 3).(nickname := p.nickname)
    else if n == 5 then Partly(p, 4).(identity := p.identity)
    else if n == 6 then Partly(p, 5).(serverPassword := p.serverPassword)
    else if n == 7 then Partly(p, 6).(channelPassword := p.channelPassword)
    else if n == 8 then Partly(p, 7).(defaultChannel := p.defaultChannel)
    else Partly(p, 8).(socketPath := p.socketPath)
  }

  lemma PartlyStep(p: Profile, n: nat)
    requires n < 9 && SupportedBackend(p.backend)
    ensures var e := ProfileEdits(p)[n + 2];
            e.Set? && ApplyProfile(Partly(p, n), ProfileWord(e.key), e.value, 0) == Ok(Partly(p, n + 1))
  {
    hide ApplyProfile, ProfileWord, SupportedBackend, EqualsIgnoringCase, CanonicalBackend, Decimal, ParseU16;
    CanonicalBackendIsStable(p.backend);
    ParseDecimal(p.port);
    var e := ProfileEdits(p)[n + 2];
    ApplyByKey(Partly(p, n), e.key, e.value);
  }

  lemma {:induction false} PartlyRun(c: AppConfig, p: Profile, n: nat)
    requires n <= 9 && SupportedBackend(p.backend)
    requires c.profiles != [] && LastProfile(c) == Partly(p, n)
    ensures Effects(c, ProfileEdits(p)[n + 2..]) == Ok(WithLast(c, Partly(p, 9)))
    decreases 9 - n
  {
    hide Effect, ApplyProfile, Partly, SupportedBackend, ProfileEdits;
    assert |ProfileEdits(p)| == 11 by { ElevenEdits(p); }
    if n == 9 {
      assert ProfileEdits(p)[11..] == [];
      assert c.profiles[..|c.profiles| - 1] + [LastProfile(c)] == c.profiles;
    } else {
      var e := ProfileEdits(p)[n + 2];
      PartlyStep(p, n);
      SetEffect(c, Partly(p, n), Partly(p, n + 1), e.key, e.value);
      var d := WithLast(c, Partly(p, n + 1));
      PartlyRun(d, p, n + 1);
      assert ProfileEdits(p)[n + 2..][1..] == ProfileEdits(p)[n + 3..];
      assert WithLast(d, Partly(p, 9)) == WithLast(c, Partly(p, 9));
    }
  }

  lemma ElevenEdits(p: Profile)
    ensures |ProfileEdits(p)| == 11 && ProfileEdits(p)[0] == Gap && ProfileEdits(p)[1] == Section(p.name)
  {
  }

  lemma PartlyAll(p: Profile)
    ensures Partly(p, 9) == CanonicalProfile(p)
  {
    hide CanonicalBackend;
    assert Partly(p, 2) == Partly(p, 1).(host := p.host);
    assert Partly(p, 4) == Partly(p, 3).(nickname := p.nickname);
    assert Partly(p, 6) == Partly(p, 5).(serverPassword := p.serverPassword);
    assert Partly(p, 8) == Partly(p, 7).(defaultChannel := p.defaultChannel);
  }

  lemma ProfileIsRead(c: AppConfig, p: Profile)
    requires SupportedBackend(p.backend)
    ensures Effects(c, ProfileEdits(p)) == Ok(c.(profiles := c.profiles + [CanonicalProfile(p)]))
  {
    hide SupportedBackend, Partly, ProfileEdits, NewProfile;
    ElevenEdits(p);
    var es := ProfileEdits(p);
    var d := c.(profiles := c.profiles + [NewProfile(p.name)]);
    assert Partly(p, 0) == NewProfile(p.name) by { PartlyNone(p); }
    PartlyRun(d, p, 0);
    PartlyAll(p);
    assert es[1..][0] == es[1] && es[1..][1..] == es[2..];
    assert d.profiles[..|d.profiles| - 1] == c.profiles;
  }

  lemma PartlyNone(p: Profile)
    ensures Partly(p, 0) == NewProfile(p.name)
  {
  }

  lemma NoProfilesAreRead(c: AppConfig)
    ensures Effects(c, ProfilesEdits([])) == Ok(c.(profiles := c.profiles + CanonicalProfiles([])))
  {
    assert c.profiles + [] == c.profiles;
  }

  lemma CanonicalFirst(p: Profile, more: seq<Profile>)
    ensures CanonicalProfiles([p] + more) == [CanonicalProfile(p)] + CanonicalProfiles(more)
    ensures ProfilesEdits([p] + more) == ProfileEdits(p) + ProfilesEdits(more)
  {
    hide CanonicalProfile, ProfileEdits;
    assert ([p] + more)[1..] == more;
  }

  lemma {:induction false} ProfilesAreRead(c: AppConfig, profiles: seq<Profile>)
    requires forall i :: 0 <= i < |profiles| ==> SupportedBackend(profiles[i].backend)
    ensures Effects(c, ProfilesEdits(profiles)) == Ok(c.(profiles := c.profiles + CanonicalProfiles(profiles)))
    decreases |profiles|
  {
    hide ProfileEdits, SupportedBackend, CanonicalProfile, Effects, CanonicalProfiles, ProfilesEdits;
    if profiles == [] {
      NoProfilesAreRead(c);
    } else {
      var p, more := profiles[0], profiles[1..];
      assert profiles == [p] + more;
      CanonicalFirst(p, more);
      ProfileIsRead(c, p);
      var d := c.(profiles := c.profiles + [CanonicalProfile(p)]);
      EffectsAppend(c, ProfileEdits(p), ProfilesEdits(more));
      ProfilesAreRead(d, more);
      assert d.profiles + CanonicalProfiles(more) == c.profiles + ([CanonicalProfile(p)] + CanonicalProfiles(more));
    }
  }

  function ConfigEdits(c: AppConfig): seq<Edit> {
    [SetRoot(VersionKey, SignedDecimal(c.version)), SetRoot(ActiveKey, c.active)] + ProfilesEdits(c.profiles)
  }

  lemma ConfigIsRead(c: AppConfig)
    requires c.version == 1 && forall i :: 0 <= i < |c.profiles| ==> SupportedBackend(c.profiles[i].backend)
    ensures Effects(NO_PROFILES, ConfigEdits(c)) == Ok(Canonical(c))
  {
    hide ProfilesEdits, SupportedBackend, RootWord, ApplyProfile, ReadRootKey, Decimal, ParseU64;
    var es, rest := ConfigEdits(c), ProfilesEdits(c.profiles);
    RootKeyWords(VersionKey);
    RootKeyWords(ActiveKey);
    ParseSignedDecimal(c.version);
    var one := NO_PROFILES.(version := 1);
    var two := one.(active := c.active);
    assert Effect(NO_PROFILES, es[0]) == Ok(one);
    assert Effect(one, es[1]) == Ok(two);
    assert es[1..][0] == es[1] && es[1..][1..] == rest;
    ProfilesAreRead(two, c.profiles);
    assert two.profiles + CanonicalProfiles(c.profiles) == CanonicalProfiles(c.profiles);
  }

  lemma {:induction false} ProfilesTextIsEdits(profiles: seq<Profile>)
    ensures EditLines(ProfilesEdits(profiles)) == ProfilesText(profiles)
  {
    hide Setting, CanonicalBackend, Decimal;
    if profiles != [] {
      ProfilesTextIsEdits(profiles[1..]);
      ProfileTextIsEdits(profiles[0]);
      EditLinesAppend(ProfileEdits(profiles[0]), ProfilesEdits(profiles[1..]));
    }
  }

  lemma ProfileTextIsEdits(p: Profile)
    ensures EditLines(ProfileEdits(p)) == ProfileText(p)
  {
    hide Setting, CanonicalBackend, Decimal, EditLines;
    ElevenEdits(p);
    var es, text := ProfileEdits(p), ProfileText(p);
    assert |text| == 11;
    forall i | 0 <= i < 11 ensures EditLines(es)[i] == text[i] {
      assert EditLines(es)[i] == EditLine(es[i]);
    }
  }

  lemma EditLinesAppend(a: seq<Edit>, b: seq<Edit>)
    ensures EditLines(a + b) == EditLines(a) + EditLines(b)
  {
    hide EditLine;
  }

  lemma ConfigTextIsEdits(c: AppConfig)
    ensures EditLines(ConfigEdits(c)) == ConfigText(c)
  {
    hide Setting, SignedDecimal, ProfilesEdits, ProfilesText;
    ProfilesTextIsEdits(c.profiles);
    var head := [SetRoot(VersionKey, SignedDecimal(c.version)), SetRoot(ActiveKey, c.active)];
    EditLinesAppend(head, ProfilesEdits(c.profiles));
  }

  lemma ProfileEditsAreClean(p: Profile)
    requires CleanProfile(p)
    ensures forall i :: 0 <= i < |ProfileEdits(p)| ==> CleanEdit(ProfileEdits(p)[i])
  {
    hide Clean, Decimal;
    WordsAreClean();
    NumbersAreClean(p.port);
  }

  lemma NumbersAreClean(n: nat)
    ensures Clean(Decimal(n))
  {
    DecimalDigits(n);
  }

  lemma {:induction false} ProfilesEditsAreClean(profiles: seq<Profile>)
    requires forall i :: 0 <= i < |profiles| ==> CleanProfile(profiles[i])
    ensures forall i :: 0 <= i < |ProfilesEdits(profiles)| ==> CleanEdit(ProfilesEdits(profiles)[i])
  {
    hide CleanProfile, ProfileEdits, CleanEdit;
    if profiles != [] {
      ProfileEditsAreClean(profiles[0]);
      ProfilesEditsAreClean(profiles[1..]);
    }
  }

  lemma ConfigEditsAreClean(c: AppConfig)
    requires CleanConfig(c) && c.version == 1
    ensures forall i :: 0 <= i < |ConfigEdits(c)| ==> CleanEdit(ConfigEdits(c)[i])
  {
    hide CleanProfile, Clean, ProfilesEdits, Decimal;
    NumbersAreClean(1);
    ProfilesEditsAreClean(c.profiles);
  }

  lemma EditLineIsOneLine(e: Edit)
    requires CleanEdit(e)
    ensures '\n' !in EditLine(e)
  {
    match e
    case SetRoot(root, value) =>
      RootWordsFit(root);
      SettingLine(RootWord(root), value);
    case Set(key, value) =>
      ProfileWordsFit(key);
      SettingLine(ProfileWord(key), value);
    case Section(name) => assert '\n' !in PREFIX;
    case Gap =>
  }

  lemma RenderedLines(c: AppConfig)
    requires CleanConfig(c) && c.version == 1
    ensures Lines(RenderConfig(c)) == EditLines(ConfigEdits(c))
  {
    hide ConfigText, ConfigEdits, EditLine, CleanEdit, Split, Terminated;
    ConfigTextIsEdits(c);
    ConfigEditsAreClean(c);
    var es, lines := ConfigEdits(c), ConfigText(c);
    forall i | 0 <= i < |lines| ensures '\n' !in lines[i] {
      EditLineIsOneLine(es[i]);
    }
    TerminatedLines(lines);
  }

  lemma CanonicalStaysWithinRules(c: AppConfig)
    requires WithinRules(c) && Named(c, c.active)
    ensures WithinRules(Canonical(c)) && Named(Canonical(c), Canonical(c).active)
  {
    hide SupportedBackend, CanonicalBackend, Blank;
    var d := Canonical(c);
    forall i | 0 <= i < |d.profiles| ensures GoodProfile(d.profiles[i]) {
      CanonicalBackendIsStable(c.profiles[i].backend);
      assert GoodProfile(c.profiles[i]);
    }
    var k :| 0 <= k < |c.profiles| && c.profiles[k].name == c.active;
    assert d.profiles[k].name == d.active;
  }

  /** Round trip: any valid configuration whose values fit on a line is loaded back as written,
      with the backends under their canonical names. */
  lemma WrittenIsLoaded(c: AppConfig)
    requires CleanConfig(c) && WithinRules(c) && Named(c, c.active)
    ensures Load(RenderConfig(c)) == Ok(Canonical(c))
  {
    hide RenderConfig, TakeLines, Effects, ConfigEdits, CleanEdit,
      Validate, GoodProfile, CleanConfig, CanonicalProfiles, Named;
    assert forall i :: 0 <= i < |c.profiles| ==> SupportedBackend(c.profiles[i].backend) by { BackendsAreSupported(c); }
    ConfigIsRead(c);
    ConfigEditsAreClean(c);
    EditsAreTaken(START, ConfigEdits(c));
    RenderedLines(c);
    CanonicalStaysWithinRules(c);
    var s := TakeLines(START, Lines(RenderConfig(c))).value;
    assert s.config == Canonical(c);
    assert s.config.profiles != [] by { SomeProfile(Canonical(c)); }
    ValidateMeans(Canonical(c), Where(s.root, s.profiles));
  }

  /** A supported backend is a word, whatever its case. */
  lemma SupportedIsClean(backend: bytes)
    requires SupportedBackend(backend)
    ensures Clean(backend)
  {
    LowerWords();
    var word := Lower(backend);
    assert word == MOCK || word == FAKE || word == PLUGIN;
    forall i | 0 <= i < |backend| ensures !IsSpace(backend[i]) && backend[i] != '\n' {
      assert word[i] == LowerByte(backend[i]);
      assert 'a' <= word[i] <= 'z';
    }
  }

  lemma CanonicalCleanMeansClean(p: Profile)
    requires CleanProfile(CanonicalProfile(p)) && SupportedBackend(p.backend)
    ensures CleanProfile(p)
  {
    hide Clean, SupportedBackend, CanonicalBackend;
    SupportedIsClean(p.backend);
  }

  /** ConfigStore::save validates and writes. What it wrote is loaded as it was exactly when
      every value fits on its line: no white space at either end and no newline inside. */
  lemma SavedIsLoadedExactlyWhen(c: AppConfig)
    requires WithinRules(c) && Named(c, c.active)
    ensures Load(RenderConfig(c)) == Ok(Canonical(c)) <==> CleanConfig(c)
  {
    hide RenderConfig, Validate, Parse, GoodProfile, CleanProfile, Named, Clean;
    if CleanConfig(c) {
      WrittenIsLoaded(c);
    }
    if Load(RenderConfig(c)) == Ok(Canonical(c)) {
      LoadedIsClean(RenderConfig(c));
      assert CleanConfig(Canonical(c));
      BackendsAreSupported(c);
      forall i | 0 <= i < |c.profiles| ensures CleanProfile(c.profiles[i]) {
        assert CanonicalProfiles(c.profiles)[i] == CanonicalProfile(c.profiles[i]);
        CanonicalCleanMeansClean(c.profiles[i]);
      }
    }
  }

  lemma BackendsAreSupported(c: AppConfig)
    requires WithinRules(c)
    ensures forall i :: 0 <= i < |c.profiles| ==> SupportedBackend(c.profiles[i].backend)
  {
    forall i | 0 <= i < |c.profiles| ensures SupportedBackend(c.profiles[i].backend) {
      assert GoodProfile(c.profiles[i]);
    }
  }

  lemma SomeProfile(c: AppConfig)
    requires Named(c, c.active)
    ensures c.profiles != []
  {
  }

  lemma {:induction false} CanonicalTextIsSame(profiles: seq<Profile>)
    ensures ProfilesText(CanonicalProfiles(profiles)) == ProfilesText(profiles)
  {
    hide Setting, CanonicalBackend, Decimal;
    if profiles != [] {
      CanonicalBackendIsStable(profiles[0].backend);
      CanonicalTextIsSame(profiles[1..]);
      assert CanonicalProfiles(profiles)[1..] == CanonicalProfiles(profiles[1..]);
    }
  }

  /** Normal form: whatever text is accepted, writing the configuration and loading it again
      gives the same configuration with canonical backends, and writing that one again gives
      the same text, byte for byte. */
  lemma NormalForm(text: bytes)
    requires Load(text).Ok?
    ensures var c := Load(text).value;
            && Load(RenderConfig(c)) == Ok(Canonical(c))
            && RenderConfig(Canonical(c)) == RenderConfig(c)
  {
    hide Parse, Validate, RenderConfig, Canonical, CleanConfig, WithinRules, Named;
    var (c, w) := Parse(text).value;
    LoadedIsClean(text);
    ValidateMeans(c, w);
    WrittenIsLoaded(c);
    SameText(c);
  }

  lemma SameText(c: AppConfig)
    ensures RenderConfig(Canonical(c)) == RenderConfig(c)
  {
    hide Setting, ProfilesText, CanonicalProfiles, Terminated;
    CanonicalTextIsSame(c.profiles);
  }

  // ---------- The lenient loader ----------

  /** apply_profile_list_root_key */
  function LenientRoot(c: AppConfig, word: bytes, value: bytes): Result<AppConfig> {
    if word == VERSION then
      var parsed := ParseU64(value);
      if parsed.None? then Err(ConfigError(INVALID_VERSION, BAD_VERSION))
      else if parsed.value > INT_MAX then Err(ConfigError(UNSUPPORTED, UNSUPPORTED_VERSION + ": " + value))
      else Ok(c.(version := parsed.value))
    else if word == ACTIVE then Ok(c.(active := value))
    else Err(ConfigError(UNKNOWN_ROOT, UNKNOWN_KEY + ": " + word))
  }

  /** apply_profile_list_profile_key */
  function LenientProfile(p: Profile, word: bytes, value: bytes): Result<Profile> {
    if word == BACKEND then Ok(p.(backend := if EqualsIgnoringCase(value, FAKE) then MOCK else value))
    else if word == HOST then Ok(p.(host := value))
    else if word == PORT then
      var parsed := ParseU16(value);
      if parsed.None? then Err(ConfigError(INVALID_PORT, BAD_PORT + p.name)) else Ok(p.(port := parsed.value))
    else if word == NICKNAME then Ok(p.(nickname := value))
    else if word == IDENTITY then Ok(p.(identity := value))
    else if word == SERVER_PASSWORD then Ok(p.(serverPassword := value))
    else if word == CHANNEL_PASSWORD then Ok(p.(channelPassword := value))
    else if word == DEFAULT_CHANNEL then Ok(p.(defaultChannel := value))
    else if word == SOCKET_PATH then Ok(p.(socketPath := value))
    else if word == HEADLESS || word == RESOURCES || word == LIBRARY then Ok(p)
    else Err(ConfigError(UNKNOWN_PROFILE, UNKNOWN_PROFILE_KEY + p.name + ": " + word))
  }

  /** One line, when nothing but the configuration and the line number is kept. */
  function LenientLine(c: AppConfig, text: bytes, line: nat): Result<AppConfig> {
    var t := Trim(text);
    if Skipped(t) then Ok(c)
    else if IsSection(t) then
      var section := SectionText(t);
      if !GoodSection(section) then Err(ConfigError(INVALID_SECTION, BAD_SECTION + Decimal(line) + ": " + section))
      else Ok(c.(profiles := c.profiles + [NewProfile(section[|PREFIX|..])]))
    else
      match FindByte(t, '=')
      case None => Err(ConfigError(INVALID_LINE, BAD_LINE + Decimal(line)))
      case Some(i) =>
        var key, value := Trim(t[..i]), Trim(t[i + 1..]);
        if c.profiles == [] then LenientRoot(c, key, value)
        else
          var p :- LenientProfile(LastProfile(c), key, value);
          Ok(WithLast(c, p))
  }

  function LenientLines(c: AppConfig, lines: seq<bytes>, line: nat): Result<AppConfig>
    decreases |lines|
  {
    if lines == [] then Ok(c)
    else
      var next :- LenientLine(c, lines[0], line + 1);
      LenientLines(next, lines[1..], line + 1)
  }

  /** load_config_without_active_resolution: the text is read a second time, without
      validation, when only its active profile is wrong. */
  function LenientLoad(file: Option<bytes>): Result<AppConfig> {
    var loaded := LoadOrDefault(file);
    if loaded.Ok? || loaded.error.code != INVALID_ACTIVE then loaded
    else
      var c :- LenientLines(NO_PROFILES, Lines(file.value), 0);
      Ok(if c.profiles == [] then DEFAULT_CONFIG else c)
  }

  lemma LenientLineAgrees(s: Loading, text: bytes)
    requires TakeLine(s, text).Ok?
    ensures LenientLine(s.config, text, s.line + 1) == Ok(TakeLine(s, text).value.config)
    ensures TakeLine(s, text).value.line == s.line + 1
  {
    hide Trim, FindByte, LineSuffix, EqualsIgnoringCase, ParseU16, ParseU64;
    var t := Trim(text);
    if !Skipped(t) && !IsSection(t) {
      var i := FindByte(t, '=').value;
      SettingAgrees(s.config, Trim(t[..i]), Trim(t[i + 1..]), s.line + 1);
    }
  }

  lemma SettingAgrees(c: AppConfig, word: bytes, value: bytes, line: nat)
    requires Apply(c, word, value, line).Ok?
    ensures if c.profiles == [] then LenientRoot(c, word, value) == Apply(c, word, value, line)
            else LenientProfile(LastProfile(c), word, value).Ok? &&
                 Ok(WithLast(c, LenientProfile(LastProfile(c), word, value).value)) == Apply(c, word, value, line)
  {
    hide EqualsIgnoringCase, ParseU16, ParseU64, LineSuffix;
  }

  lemma {:induction false} LenientLinesAgree(s: Loading, lines: seq<bytes>)
    requires TakeLines(s, lines).Ok?
    ensures LenientLines(s.config, lines, s.line) == Ok(TakeLines(s, lines).value.config)
    decreases |lines|
  {
    hide TakeLine, LenientLine;
    if lines != [] {
      LenientLineAgrees(s, lines[0]);
      LenientLinesAgree(TakeLine(s, lines[0]).value, lines[1..]);
    }
  }

  lemma ParseErrorsAreNotAboutActive(text: bytes)
    ensures Parse(text).Err? ==> Parse(text).error.code != INVALID_ACTIVE
  {
    hide TakeLines;
    TakeLinesErrors(START, Lines(text));
  }

  lemma TakeLineErrors(s: Loading, line: bytes)
    ensures TakeLine(s, line).Err? ==> TakeLine(s, line).error.code != INVALID_ACTIVE
  {
    hide Trim, FindByte, LineSuffix, Decimal, LoadedBackend, ParseU16, ParseU64, ReadProfileKey, ReadRootKey;
    ProfileCodes();
  }

  lemma {:induction false} TakeLinesErrors(s: Loading, lines: seq<bytes>)
    ensures TakeLines(s, lines).Err? ==> TakeLines(s, lines).error.code != INVALID_ACTIVE
    decreases |lines|
  {
    hide TakeLine;
    if lines != [] {
      TakeLineErrors(s, lines[0]);
      if TakeLine(s, lines[0]).Ok? {
        TakeLinesErrors(TakeLine(s, lines[0]).value, lines[1..]);
      }
    }
  }

  /** Two loaders agree: on any existing text the lenient loader returns what the strict one
      does, except when the active profile is the only thing wrong; then it returns what was
      parsed, and that is within every other rule. */
  lemma LoadersAgree(text: bytes)
    ensures var parsed := Parse(text);
            if parsed.Ok? && WithinRules(parsed.value.0) && !Named(parsed.value.0, parsed.value.0.active)
            then LenientLoad(Some(text)) == Ok(parsed.value.0)
              && Load(text).Err? && Load(text).error.code == INVALID_ACTIVE
            else LenientLoad(Some(text)) == Load(text)
  {
    hide Validate, WithinRules, Named, TakeLines, LenientLines;
    ParseErrorsAreNotAboutActive(text);
    var parsed := Parse(text);
    if parsed.Ok? {
      ValidateMeans(parsed.value.0, parsed.value.1);
      LenientLinesAgree(START, Lines(text));
    }
  }

  // ---------- The loaders and the writer as written ----------

  lemma {:induction false} TakeLinesStep(s: Loading, lines: seq<bytes>, i: nat)
    requires i < |lines|
    ensures TakeLines(s, lines[i..]) ==
            if TakeLine(s, lines[i]).Err? then Err(TakeLine(s, lines[i]).error)
            else TakeLines(TakeLine(s, lines[i]).value, lines[i + 1..])
  {
    hide TakeLine;
    assert lines[i..][0] == lines[i] && lines[i..][1..] == lines[i + 1..];
  }

  /** The body of the loop of ConfigStore::load. */
  method LoadLine(s: Loading, text: bytes) returns (r: Result<Loading>)
    ensures r == TakeLine(s, text)
  {
    hide Apply, Trim, Note, Open, SectionText;
    var trimmed := TrimText(text);
    var line := s.line + 1;
    if trimmed == [] || trimmed[0] == '#' || trimmed[0] == ';' {
      return Ok(s.(line := line));
    }
    if trimmed[0] == '[' && trimmed[|trimmed| - 1] == ']' {
      var section := SectionText(trimmed);
      if !(PREFIX <= section) || section == PREFIX {
        return Err(ConfigError(INVALID_SECTION, BAD_SECTION + Decimal(line) + ": " + section));
      }
      return Ok(Open(s, section[|PREFIX|..], line));
    }
    var separator := FindByte(trimmed, '=');
    if separator.None? {
      return Err(ConfigError(INVALID_LINE, BAD_LINE + Decimal(line)));
    }
    var key := TrimText(trimmed[..separator.value]);
    var value := TrimText(trimmed[separator.value + 1..]);
    var applied := Apply(s.config, key, value, line);
    if applied.Err? {
      return Err(applied.error);
    }
    return Ok(Note(s, key, line).(config := applied.value));
  }

  /** validate_config: one pass that collects the names. */
  method ValidateConfig(c: AppConfig, w: Where) returns (r: Result<()>)
    ensures r == Validate(c, w)
  {
    hide CheckProfile, LineSuffix, SignedDecimal, RootLine;
    if c.version != 1 {
      return Err(ConfigError(UNSUPPORTED,
                             UNSUPPORTED_VERSION + LineSuffix(RootLine(w, VERSION)) + ": " + SignedDecimal(c.version)));
    }
    var seen: set<bytes> := {};
    for i := 0 to |c.profiles|
      invariant CheckProfiles(c, 0, {}, w) == CheckProfiles(c, i, seen, w)
    {
      var checked := CheckProfile(c.profiles[i], i, seen, w);
      if checked.Err? {
        return Err(checked.error);
      }
      seen := seen + {c.profiles[i].name};
    }
    if c.active !in seen {
      return Err(ConfigError(INVALID_ACTIVE, MISSING_ACTIVE + LineSuffix(RootLine(w, ACTIVE)) + ": " + c.active));
    }
    return Ok(());
  }

  /** ConfigStore::load */
  method LoadConfig(text: bytes) returns (r: Result<AppConfig>)
    ensures r == Load(text)
  {
    hide TakeLine, Validate, Lines;
    var lines := Lines(text);
    var s := START;
    assert lines[0..] == lines;
    for i := 0 to |lines|
      invariant TakeLines(START, lines) == TakeLines(s, lines[i..])
    {
      TakeLinesStep(s, lines, i);
      var taken := LoadLine(s, lines[i]);
      if taken.Err? {
        return Err(taken.error);
      }
      s := taken.value;
    }
    var config, lineInfo := s.config, Where(s.root, s.profiles);
    if config.profiles == [] {
      config, lineInfo := DEFAULT_CONFIG, Where(map[], []);
    }
    var valid := ValidateConfig(config, lineInfo);
    if valid.Err? {
      return Err(valid.error);
    }
    return Ok(config);
  }

  lemma LenientStep(c: AppConfig, lines: seq<bytes>, i: nat)
    requires i < |lines|
    ensures LenientLines(c, lines[i..], i) ==
            var next := LenientLine(c, lines[i], i + 1);
            if next.Err? then Err(next.error) else LenientLines(next.value, lines[i + 1..], i + 1)
  {
    hide LenientLine;
    assert lines[i..][0] == lines[i] && lines[i..][1..] == lines[i + 1..];
  }

  /** load_config_without_active_resolution: `current` points into the list of profiles. */
  method LoadWithoutActive(file: Option<bytes>) returns (r: Result<AppConfig>)
    ensures r == LenientLoad(file)
  {
    hide LenientRoot, LenientProfile, Load, Lines, Trim, SectionText;
    if file.None? {
      return Ok(DEFAULT_CONFIG);
    }
    r := LoadConfig(file.value);
    if r.Ok? || r.error.code != INVALID_ACTIVE {
      return;
    }
    var lines := Lines(file.value);
    var config := NO_PROFILES;
    var current: Option<nat> := None;
    assert lines[0..] == lines;
    for i := 0 to |lines|
      invariant LenientLines(NO_PROFILES, lines, 0) == LenientLines(config, lines[i..], i)
      invariant current == if config.profiles == [] then None else Some(|config.profiles| - 1)
    {
      LenientStep(config, lines, i);
      var trimmed := TrimText(lines[i]);
      if trimmed == [] || trimmed[0] == '#' || trimmed[0] == ';' {
        continue;
      }
      if trimmed[0] == '[' && trimmed[|trimmed| - 1] == ']' {
        var section := SectionText(trimmed);
        if !(PREFIX <= section) || section == PREFIX {
          return Err(ConfigError(INVALID_SECTION, BAD_SECTION + Decimal(i + 1) + ": " + section));
        }
        config := config.(profiles := config.profiles + [NewProfile(section[|PREFIX|..])]);
        current := Some(|config.profiles| - 1);
        continue;
      }
      var separator := FindByte(trimmed, '=');
      if separator.None? {
        return Err(ConfigError(INVALID_LINE, BAD_LINE + Decimal(i + 1)));
      }
      var key := TrimText(trimmed[..separator.value]);
      var value := TrimText(trimmed[separator.value + 1..]);
      if current.None? {
        var applied := LenientRoot(config, key, value);
        if applied.Err? {
          return Err(applied.error);
        }
        RootKeepsProfiles(config, key, value);
        config := applied.value;
      } else {
        var applied := LenientProfile(config.profiles[current.value], key, value);
        if applied.Err? {
          return Err(applied.error);
        }
        assert config.profiles[current.value := applied.value] ==
               config.profiles[..|config.profiles| - 1] + [applied.value];
        config := config.(profiles := config.profiles[current.value := applied.value]);
      }
    }
    if config.profiles == [] {
      config := DEFAULT_CONFIG;
    }
    return Ok(config);
  }

  lemma RootKeepsProfiles(c: AppConfig, word: bytes, value: bytes)
    ensures LenientRoot(c, word, value).Ok? ==> LenientRoot(c, word, value).value.profiles == c.profiles
  {
    hide ParseU64;
  }

  lemma {:induction false} ProfilesTextAppend(profiles: seq<Profile>, p: Profile)
    ensures ProfilesText(profiles + [p]) == ProfilesText(profiles) + ProfileText(p)
  {
    hide ProfileText;
    if profiles == [] {
      assert profiles + [p] == [p] && [p][1..] == [];
      assert ProfileText(p) + [] == [] + ProfileText(p);
    } else {
      assert (profiles + [p])[1..] == profiles[1..] + [p];
      ProfilesTextAppend(profiles[1..], p);
    }
  }

  /** Several lines of output, each ended. */
  method WriteLines(start: bytes, lines: seq<bytes>) returns (out: bytes)
    ensures out == start + Terminated(lines)
  {
    out := start;
    assert lines[..0] == [];
    for i := 0 to |lines|
      invariant out == start + Terminated(lines[..i])
    {
      assert lines[..i + 1] == lines[..i] + [lines[i]];
      TerminatedAppend(lines[..i], [lines[i]]);
      assert Terminated([lines[i]]) == lines[i] + ['\n'] + Terminated([]);
      out := out + lines[i] + ['\n'];
    }
    assert lines[..|lines|] == lines;
  }

  /** render_config: the root settings, then one profile after another. */
  method WriteConfig(c: AppConfig) returns (out: bytes)
    ensures out == RenderConfig(c)
  {
    hide ProfileText, ProfilesText, Setting, Terminated;
    var head := [Setting(VERSION, SignedDecimal(c.version)), Setting(ACTIVE, c.active)];
    out := WriteLines([], head);
    assert ProfilesText([]) == [] by { NoProfilesText(); }
    assert head + [] == head && [] + Terminated(head) == Terminated(head);
    for i := 0 to |c.profiles|
      invariant out == Terminated(head + ProfilesText(c.profiles[..i]))
    {
      ProfilesTextAppend(c.profiles[..i], c.profiles[i]);
      assert c.profiles[..i + 1] == c.profiles[..i] + [c.profiles[i]];
      TerminatedAppend(head + ProfilesText(c.profiles[..i]), ProfileText(c.profiles[i]));
      assert head + (ProfilesText(c.profiles[..i]) + ProfileText(c.profiles[i])) ==
             head + ProfilesText(c.profiles[..i]) + ProfileText(c.profiles[i]);
      out := WriteLines(out, ProfileText(c.profiles[i]));
    }
    assert c.profiles[..|c.profiles|] == c.profiles;
  }

  lemma NoProfilesText()
    ensures ProfilesText([]) == []
  {
  }
}
