/** Capture-device takeover in the TeamSpeak plugin (plugin_host_backend.cpp): snapshot the host,
    switch it to the custom device, and hand the snapshot back when playback ends. */
module Takeover {
  import opened Bytes
  import opened Wire

  // ---------- The host ----------

  const CUSTOM_MODE: bytes := "custom"
  const CUSTOM_DEVICE: bytes := "ts3cli_media_capture"
  const INPUT_ACTIVE: int := 0
  const MUTEINPUT_NONE: int := 0

  /** An open capture device: mode, name, and whether the host chose it as its default. */
  datatype Capture = Capture(mode: bytes, device: bytes, isDefault: bool)

  const CUSTOM: Capture := Capture(CUSTOM_MODE, CUSTOM_DEVICE, false)

  /** What the takeover changes: the open capture device, if any, and two input flags. */
  datatype Host = Host(capture: Option<Capture>, deactivated: int, muted: int)

  /** The functions the host offers to change its state, and its default mode and device. */
  datatype Api = Api(
    registers: bool, closes: bool, opens: bool, activates: bool, sets: bool, flushes: bool, processes: bool,
    defaultMode: bytes, defaultDevice: bytes)

  /** Which parts of the host's state can be read at some moment: the query is offered and it
      succeeds. */
  datatype Queries = Queries(mode: bool, device: bool, deactivated: bool, muted: bool)

  const ALL_READ: Queries := Queries(true, true, true, true)

  /** Which host calls succeed; one that fails changes nothing. */
  datatype Verdicts = Verdicts(
    close: bool, open: bool, activate: bool, deactivated: bool, muted: bool, flush: bool)

  const GOOD: Verdicts := Verdicts(true, true, true, true, true, true)

  /** An empty mode or device asks for the default one. */
  function Opened(api: Api, mode: bytes, device: bytes): Capture {
    Capture(if mode == [] then api.defaultMode else mode,
            if device == [] then api.defaultDevice else device,
            device == [])
  }

  /** A device that the host reports has names, and is the default one if it says so. */
  predicate Proper(api: Api, h: Host) {
    h.capture.Some? ==>
      var c := h.capture.value;
      c.mode != [] && c.device != [] && (c.isDefault ==> c.device == api.defaultDevice)
  }

  // ---------- Snapshot, takeover, restore ----------

  datatype Session = Session(
    handler: u64, mode: Option<bytes>, device: Option<bytes>, deactivated: Option<int>, muted: Option<int>)

  const NO_SESSION: Session := Session(0, None, None, None, None)

  /** snapshot_media_playback_session: whatever can be read, except the custom device itself. */
  function Snapshot(q: Queries, h: Host, handler: u64): Session {
    var mode := if q.mode && h.capture.Some? then Some(h.capture.value.mode) else None;
    var flags := Session(handler, mode, None, if q.deactivated then Some(h.deactivated) else None,
                         if q.muted then Some(h.muted) else None);
    if !q.device || h.capture.None? then flags
    else
      var c := h.capture.value;
      if mode == Some(CUSTOM_MODE) && c.device == CUSTOM_DEVICE then flags.(mode := None)
      else flags.(device := Some(if c.isDefault then [] else c.device))
  }

  /** The functions without which activate_custom_capture_device refuses to begin. */
  predicate Takes(api: Api) {
    api.opens && api.processes && api.sets && api.flushes
  }

  /** closeCaptureDevice, whose error nobody looks at. */
  function Closed(api: Api, h: Host, v: Verdicts): Host {
    if api.closes && v.close then h.(capture := None) else h
  }

  function SetInputs(h: Host, v: Verdicts): (Host, bool) {
    if !v.deactivated then (h, false)
    else
      var active := h.(deactivated := INPUT_ACTIVE);
      if !v.muted then (active, false)
      else (active.(muted := MUTEINPUT_NONE), v.flush)
  }

  /** activate_custom_capture_device: the first call that fails ends it. */
  function TakeOver(api: Api, h: Host, v: Verdicts): (Host, bool) {
    if !Takes(api) then (h, false)
    else if !v.open then (Closed(api, h, v), false)
    else
      var switched := Closed(api, h, v).(capture := Some(CUSTOM));
      if api.activates && !v.activate then (switched, false) else SetInputs(switched, v)
  }

  function RestoreCapture(api: Api, h: Host, s: Session, v: Verdicts): (Host, bool) {
    var closed := Closed(api, h, v);
    if !api.opens || (s.mode.None? && s.device.None?) then (closed, true)
    else if !v.open then (closed, false)
    else
      var mode := if s.mode.Some? then s.mode.value else [];
      var device := if s.device.Some? then s.device.value else [];
      (closed.(capture := Some(Opened(api, mode, device))), !api.activates || v.activate)
  }

  function RestoreInputs(api: Api, h: Host, s: Session, v: Verdicts): (Host, bool) {
    if !api.sets || !api.flushes || (s.deactivated.None? && s.muted.None?) then (h, true)
    else if s.deactivated.Some? && !v.deactivated then (h, false)
    else
      var g := if s.deactivated.Some? then h.(deactivated := s.deactivated.value) else h;
      if s.muted.Some? && !v.muted then (g, false)
      else (if s.muted.Some? then g.(muted := s.muted.value) else g, v.flush)
  }

  /** restore_media_playback_session */
  function Restore(api: Api, h: Host, s: Session, v: Verdicts): (Host, bool) {
    if s.handler == 0 then (h, true)
    else
      var (g, ok) := RestoreCapture(api, h, s, v);
      if ok then RestoreInputs(api, g, s, v) else (g, false)
  }

  // ---------- Exactly when the host gets its own state back ----------

  /** The host after a takeover and a restore, each complete or cut short by a failing call. */
  function ThereAndBack(api: Api, q: Queries, h: Host, handler: u64, v: Verdicts, r: Verdicts): Host {
    Restore(api, TakeOver(api, h, v).0, Snapshot(q, h, handler), r).0
  }

  predicate OnCustom(h: Host) {
    h.capture.Some? && h.capture.value.mode == CUSTOM_MODE && h.capture.value.device == CUSTOM_DEVICE
  }

  /** The snapshot has something to reopen. */
  predicate Remembers(s: Session) {
    s.mode.Some? || s.device.Some?
  }

  /** If the device is opened again, what was not read must be the host's default. If not, and it
      is closed, none must have been open before; otherwise the takeover must have left it alone. */
  predicate CaptureRecovers(api: Api, h: Host, s: Session, v: Verdicts, r: Verdicts) {
    if api.opens && Remembers(s) && r.open then
      && h.capture.Some?
      && (s.mode.Some? || h.capture.value.mode == api.defaultMode)
      && (s.device.Some? || h.capture.value.isDefault)
    else if api.closes && r.close then h.capture.None?
    else !Takes(api) || (if v.open then h.capture == Some(CUSTOM) else api.closes && v.close ==> h.capture.None?)
  }

  predicate ForcesInput(api: Api, v: Verdicts) {
    Takes(api) && v.open && (api.activates ==> v.activate) && v.deactivated
  }

  /** The restore gets past the capture device. */
  predicate ReachesInput(api: Api, s: Session, r: Verdicts) {
    api.opens && Remembers(s) ==> r.open && (api.activates ==> r.activate)
  }

  /** A flag that was forced was read and is set again, or had the forced value anyway. */
  predicate InputsRecover(api: Api, h: Host, s: Session, v: Verdicts, r: Verdicts) {
    var again := ReachesInput(api, s, r) && (s.deactivated.Some? ==> r.deactivated);
    && (ForcesInput(api, v) ==> (again && s.deactivated.Some?) || h.deactivated == INPUT_ACTIVE)
    && (ForcesInput(api, v) && v.muted ==> (again && s.muted.Some? && r.muted) || h.muted == MUTEINPUT_NONE)
  }

  lemma CaptureRecoversExactly(api: Api, q: Queries, h: Host, handler: u64, v: Verdicts, r: Verdicts)
    requires Proper(api, h) && handler != 0
    ensures ThereAndBack(api, q, h, handler, v, r).capture == h.capture <==>
            CaptureRecovers(api, h, Snapshot(q, h, handler), v, r)
  {
    hide TakeOver, Restore;
    TakenCapture(api, h, v);
    RestoredCapture(api, TakeOver(api, h, v).0, Snapshot(q, h, handler), r);
  }

  lemma TakenCapture(api: Api, h: Host, v: Verdicts)
    ensures TakeOver(api, h, v).0.capture ==
            if !Takes(api) then h.capture else if !v.open then Closed(api, h, v).capture else Some(CUSTOM)
  {
  }

  lemma RestoredCapture(api: Api, g: Host, s: Session, r: Verdicts)
    requires s.handler != 0
    ensures Restore(api, g, s, r).0.capture ==
            if api.opens && (s.mode.Some? || s.device.Some?) && r.open then
              Some(Opened(api, if s.mode.Some? then s.mode.value else [],
                if s.device.Some? then s.device.value else []))
            else Closed(api, g, r).capture
  {
  }

  lemma TakenInputs(api: Api, h: Host, v: Verdicts)
    ensures var g := TakeOver(api, h, v).0;
            && g.deactivated == (if ForcesInput(api, v) then INPUT_ACTIVE else h.deactivated)
            && g.muted == (if ForcesInput(api, v) && v.muted then MUTEINPUT_NONE else h.muted)
  {
  }

  lemma RestoredInputs(api: Api, g: Host, s: Session, r: Verdicts)
    requires s.handler != 0
    ensures var reached := (api.opens && (s.mode.Some? || s.device.Some?) ==> r.open && (api.activates ==> r.activate));
            var sets := reached && api.sets && api.flushes && (s.deactivated.Some? ==> r.deactivated);
            var b := Restore(api, g, s, r).0;
            && b.deactivated == (if sets && s.deactivated.Some? then s.deactivated.value else g.deactivated)
            && b.muted == (if sets && s.muted.Some? && r.muted then s.muted.value else g.muted)
  {
  }

  lemma InputsRecoverExactly(api: Api, q: Queries, h: Host, handler: u64, v: Verdicts, r: Verdicts)
    requires handler != 0
    ensures var g := ThereAndBack(api, q, h, handler, v, r);
            g.deactivated == h.deactivated && g.muted == h.muted <==>
            InputsRecover(api, h, Snapshot(q, h, handler), v, r)
  {
    hide TakeOver, Restore;
    TakenInputs(api, h, v);
    RestoredInputs(api, TakeOver(api, h, v).0, Snapshot(q, h, handler), r);
  }

  /** The condition, for a host in state `h` of which `s` was read. */
  predicate Recovers(api: Api, h: Host, s: Session, v: Verdicts, r: Verdicts) {
    CaptureRecovers(api, h, s, v, r) && InputsRecover(api, h, s, v, r)
  }

  /** Takeover and restore: mode, device and input flags are back where they were, whichever
      queries and calls of the takeover failed and whichever calls of the restore, exactly under
      these conditions. */
  lemma RestoredExactlyWhen(api: Api, q: Queries, h: Host, handler: u64, v: Verdicts, r: Verdicts)
    requires Proper(api, h) && handler != 0
    ensures ThereAndBack(api, q, h, handler, v, r) == h <==> Recovers(api, h, Snapshot(q, h, handler), v, r)
  {
    hide ThereAndBack, CaptureRecovers, InputsRecover, Snapshot;
    CaptureRecoversExactly(api, q, h, handler, v, r);
    InputsRecoverExactly(api, q, h, handler, v, r);
    var g := ThereAndBack(api, q, h, handler, v, r);
    assert g == Host(g.capture, g.deactivated, g.muted) && h == Host(h.capture, h.deactivated, h.muted);
  }

  /** A host that offers everything. */
  predicate Equipped(api: Api) {
    api.closes && Takes(api)
  }

  /** On such a host, if it answers every query, the state comes back whenever the restore's own
      calls succeed, unless the custom device was open before. */
  lemma EquippedHostRecovers(api: Api, h: Host, handler: u64, v: Verdicts)
    requires Proper(api, h) && handler != 0 && Equipped(api) && !OnCustom(h)
    ensures Recovers(api, h, Snapshot(ALL_READ, h, handler), v, GOOD)
    ensures ThereAndBack(api, ALL_READ, h, handler, v, GOOD) == h
  {
    hide ThereAndBack;
    RestoredExactlyWhen(api, ALL_READ, h, handler, v, GOOD);
  }

  /** A host that can close but not open its device loses it, although nothing was taken over. */
  lemma ClosedForGood(api: Api, q: Queries, h: Host, handler: u64, v: Verdicts, r: Verdicts)
    requires handler != 0 && api.closes && r.close && !api.opens
    ensures TakeOver(api, h, v) == (h, false)
    ensures ThereAndBack(api, q, h, handler, v, r).capture == None
  {
  }

  // ---------- The plugin's own state ----------

  datatype Plugin = Plugin(
    host: Host, available: bool, registered: bool, active: bool, session: Session, thread: bool)

  /** What the outside decides about one activation: the connection, registration, the queries of
      the snapshot, the calls of the takeover and those of the restore after a failure. */
  datatype Attempt = Attempt(handler: u64, register: bool, queries: Queries, take: Verdicts, giveBack: Verdicts)

  function SnapshotOf(a: Attempt, h: Host): Session {
    Snapshot(a.queries, h, a.handler)
  }

  datatype Activation = Activated | AlreadyActive | NoFunctions | NotConnected | NotRegistered | TakeoverFailed

  /** activate_media_playback, run without interruption. */
  function Activate(api: Api, p: Plugin, a: Attempt): (Plugin, Activation) {
    var q := if p.active then p else p.(thread := false);
    if !p.available then (q, NoFunctions)
    else if a.handler == 0 then (q, NotConnected)
    else if p.active then (q, AlreadyActive)
    else if !p.registered && !(api.registers && a.register) then (q, NotRegistered)
    else
      var s := SnapshotOf(a, p.host);
      var (taken, ok) := TakeOver(api, p.host, a.take);
      if ok then (q.(host := taken, registered := true, active := true, session := s, thread := true), Activated)
      else (q.(host := Restore(api, taken, s, a.giveBack).0, registered := true), TakeoverFailed)
  }

  /** deactivate_media_playback; `self` says that the capture thread itself calls it. */
  function Deactivate(api: Api, p: Plugin, self: bool, v: Verdicts): (Plugin, bool) {
    if !p.available then (p.(active := false, session := NO_SESSION, thread := p.thread && self), true)
    else if !p.active && !p.thread then (p, true)
    else
      var (host, ok) := Restore(api, p.host, p.session, v);
      (p.(host := host, active := false, session := NO_SESSION, thread := p.thread && self), ok)
  }

  /** What the answer of an activation means: playback is on if and only if it succeeds, and each
      answer has its own condition. */
  lemma ActivateAnswers(api: Api, p: Plugin, a: Attempt)
    ensures var (q, r) := Activate(api, p, a);
            var able := p.available && a.handler != 0;
            var ready := p.registered || (api.registers && a.register);
            && (r.Activated? || r.AlreadyActive? <==> q.active && able)
            && (r.NoFunctions? <==> !p.available)
            && (r.NotConnected? <==> p.available && a.handler == 0)
            && (r.AlreadyActive? <==> able && p.active)
            && (r.NotRegistered? <==> able && !p.active && !ready)
            && (r.TakeoverFailed? <==> able && !p.active && ready && !Succeeds(api, a.take))
            && (r.Activated? <==> able && !p.active && ready && Succeeds(api, a.take))
  {
    hide Snapshot, Restore, TakeOver, Succeeds;
    SuccessIsAlike(api, p.host, a.take);
  }

  /** And what each leaves behind: a success has the custom device open, both input flags forced
      and a session for its own connection; a failure leaves playback as it was. */
  lemma ActivateEffects(api: Api, p: Plugin, a: Attempt)
    ensures var (q, r) := Activate(api, p, a);
            && (r.Activated? ==>
                  && q.host == Host(Some(Capture("custom", "ts3cli_media_capture", false)), 0, 0)
                  && q.active && q.thread && q.registered && q.session.handler == a.handler)
            && (!r.Activated? ==> q.active == p.active && q.session == p.session)
            && (!r.Activated? && !r.TakeoverFailed? ==> q.host == p.host)
            && (r.TakeoverFailed? || r.Activated? ==> q.registered)
            && (q.registered ==> p.registered || (api.registers && a.register))
            && q.available == p.available
  {
    hide Restore;
  }

  /** A deactivation always ends playback, and joins the thread unless it is the thread that asks.
      It answers with an error exactly when there was something to restore and a call of the
      restore failed. */
  lemma DeactivateAnswers(api: Api, p: Plugin, self: bool, v: Verdicts)
    ensures var (q, ok) := Deactivate(api, p, self, v);
            && (p.active ==> !q.active && q.session == NO_SESSION)
            && (p.active || p.thread || !p.available ==> (q.thread <==> p.thread && self))
            && (!p.active && !p.thread && p.available ==> q == p)
            && (!ok <==> p.available && (p.active || p.thread) && RestoreFails(api, p.session, v))
  {
    RestoreAnswers(api, p.host, p.session, v);
  }

  /** Some call that the restore of this session makes fails. */
  predicate RestoreFails(api: Api, s: Session, v: Verdicts) {
    var reopens := api.opens && (s.mode.Some? || s.device.Some?);
    var resets := api.sets && api.flushes && (s.deactivated.Some? || s.muted.Some?);
    s.handler != 0 &&
    ((reopens && (!v.open || (api.activates && !v.activate))) ||
     (resets && ((s.deactivated.Some? && !v.deactivated) || (s.muted.Some? && !v.muted) || !v.flush)))
  }

  lemma RestoreAnswers(api: Api, h: Host, s: Session, v: Verdicts)
    ensures !Restore(api, h, s, v).1 <==> RestoreFails(api, s, v)
  {
  }

  datatype Event =
    | Offering                                   // the host hands its functions over
    | Activating(attempt: Attempt)
    | Deactivating(self: bool, calls: Verdicts)

  /** One event after another, each run without interruption. */
  function After(api: Api, p: Plugin, e: Event): Plugin {
    match e
    case Offering => p.(available := true)
    case Activating(a) => Activate(api, p, a).0
    case Deactivating(self, v) => Deactivate(api, p, self, v).0
  }

  function AfterAll(api: Api, p: Plugin, events: seq<Event>): Plugin {
    if events == [] then p else After(api, AfterAll(api, p, events[..|events| - 1]), events[|events| - 1])
  }

  /** While playback runs the host is taken over and the session remembers how it was; otherwise
      it is as it was. */
  ghost predicate Borrowed(api: Api, p: Plugin, home: Host) {
    if p.active then
      && p.available && p.session.handler != 0
      && (exists q :: p.session == Snapshot(q, home, p.session.handler))
      && TakeOver(api, home, GOOD) == (p.host, true)
    else p.host == home && p.session == NO_SESSION
  }

  /** The activation gets as far as the takeover. */
  predicate Attempts(api: Api, p: Plugin, a: Attempt) {
    p.available && a.handler != 0 && !p.active && (p.registered || (api.registers && a.register))
  }

  /** Every call of the takeover that matters succeeds. */
  predicate Succeeds(api: Api, v: Verdicts) {
    Takes(api) && v.open && (api.activates ==> v.activate) && v.deactivated && v.muted && v.flush
  }

  /** The event ends a takeover of a host that was in state `home`, and under the condition of
      RestoredExactlyWhen does not bring that state back. */
  predicate Spoils(api: Api, p: Plugin, home: Host, e: Event) {
    match e
    case Offering => false
    case Activating(a) =>
      Attempts(api, p, a) && !Succeeds(api, a.take) && !Recovers(api, home, SnapshotOf(a, home), a.take, a.giveBack)
    case Deactivating(_, v) => p.active && !Recovers(api, home, p.session, GOOD, v)
  }

  /** A takeover that succeeds leaves the same host whether or not the close before it did. */
  lemma SuccessIsAlike(api: Api, h: Host, v: Verdicts)
    ensures TakeOver(api, h, v).1 <==> Succeeds(api, v)
    ensures Succeeds(api, v) ==> TakeOver(api, h, v) == TakeOver(api, h, GOOD)
  {
  }

  lemma SnapshotKeepsHandler(q: Queries, h: Host, handler: u64)
    ensures Snapshot(q, h, handler).handler == handler
  {
  }

  lemma NothingToRestore(api: Api, h: Host, v: Verdicts)
    ensures Restore(api, h, NO_SESSION, v) == (h, true)
  {
  }

  lemma BorrowedStep(api: Api, p: Plugin, e: Event, home: Host)
    requires Proper(api, home) && Borrowed(api, p, home)
    ensures if Spoils(api, p, home, e) then !After(api, p, e).active && After(api, p, e).host != home
            else Borrowed(api, After(api, p, e), home)
  {
    hide TakeOver, Restore, Snapshot, Recovers, Proper, Succeeds;
    match e
    case Offering =>
    case Activating(a) =>
      if Attempts(api, p, a) {
        SuccessIsAlike(api, home, a.take);
        RestoredExactlyWhen(api, a.queries, home, a.handler, a.take, a.giveBack);
        SnapshotKeepsHandler(a.queries, home, a.handler);
      }
    case Deactivating(self, v) =>
      NothingToRestore(api, p.host, v);
      if p.active {
        var q :| p.session == Snapshot(q, home, p.session.handler);
        RestoredExactlyWhen(api, q, home, p.session.handler, GOOD, v);
      }
  }

  /** Whenever the plugin does not play, the host is as it was at the start. */
  predicate AlwaysHome(api: Api, p: Plugin, events: seq<Event>) {
    forall i :: 0 <= i <= |events| ==>
      var q := AfterAll(api, p, events[..i]); !q.active ==> q.host == p.host
  }

  predicate NeverSpoilt(api: Api, p: Plugin, events: seq<Event>) {
    forall i :: 0 <= i < |events| ==> !Spoils(api, AfterAll(api, p, events[..i]), p.host, events[i])
  }

  lemma NeverSpoiltSnoc(api: Api, p: Plugin, events: seq<Event>)
    requires events != []
    ensures var n := |events| - 1;
            NeverSpoilt(api, p, events) <==>
            NeverSpoilt(api, p, events[..n]) && !Spoils(api, AfterAll(api, p, events[..n]), p.host, events[n])
  {
    hide AfterAll, Spoils;
    var n := |events| - 1;
    assert forall i | 0 <= i < n :: events[..n][..i] == events[..i] && events[..n][i] == events[i];
  }

  lemma AlwaysHomeSnoc(api: Api, p: Plugin, events: seq<Event>)
    requires events != []
    ensures var q := AfterAll(api, p, events);
            AlwaysHome(api, p, events) <==>
            AlwaysHome(api, p, events[..|events| - 1]) && (!q.active ==> q.host == p.host)
  {
    hide AfterAll;
    var n := |events| - 1;
    assert events[..|events|] == events;
    assert forall i | 0 <= i <= n :: events[..n][..i] == events[..i];
  }

  /** For any serialised sequence of activations, failed activations and deactivations, whatever
      their calls return: whenever the plugin does not play it has left the host as it found it,
      if and only if no takeover was ended against the condition of RestoredExactlyWhen. */
  lemma {:induction false} HostComesBackExactly(api: Api, p: Plugin, events: seq<Event>)
    requires Proper(api, p.host) && !p.active && p.session == NO_SESSION
    ensures AlwaysHome(api, p, events) <==> NeverSpoilt(api, p, events)
    ensures NeverSpoilt(api, p, events) ==> Borrowed(api, AfterAll(api, p, events), p.host)
  {
    if events == [] {
      assert events[..0] == events;
    } else {
      hide After, Proper, Spoils, AlwaysHome, NeverSpoilt;
      var n := |events| - 1;
      HostComesBackExactly(api, p, events[..n]);
      NeverSpoiltSnoc(api, p, events);
      AlwaysHomeSnoc(api, p, events);
      if NeverSpoilt(api, p, events[..n]) {
        BorrowedStep(api, AfterAll(api, p, events[..n]), events[n], p.host);
      }
    }
  }

  /** What can be said before the events. A rollback of this attempt would restore the host ... */
  predicate RollsBack(api: Api, home: Host, a: Attempt) {
    a.handler == 0 || Succeeds(api, a.take) || Recovers(api, home, SnapshotOf(a, home), a.take, a.giveBack)
  }

  /** ... and so would a deactivation with these calls after it. */
  predicate GivesBack(api: Api, home: Host, a: Attempt, v: Verdicts) {
    a.handler == 0 || !Succeeds(api, a.take) || Recovers(api, home, SnapshotOf(a, home), GOOD, v)
  }

  predicate Harmless(api: Api, home: Host, events: seq<Event>) {
    && (forall i :: 0 <= i < |events| && events[i].Activating? ==> RollsBack(api, home, events[i].attempt))
    && (forall i, j :: 0 <= i < j < |events| && events[i].Activating? && events[j].Deactivating? ==>
          GivesBack(api, home, events[i].attempt, events[j].calls))
  }

  /** The session that is active was taken by one of the events. */
  ghost predicate TakenBy(api: Api, p: Plugin, home: Host, events: seq<Event>) {
    p.active ==>
      exists i :: 0 <= i < |events| && events[i].Activating? && events[i].attempt.handler != 0 &&
                  Succeeds(api, events[i].attempt.take) && p.session == SnapshotOf(events[i].attempt, home)
  }

  lemma TakenByStep(api: Api, p: Plugin, home: Host, events: seq<Event>, e: Event)
    requires Borrowed(api, p, home) && TakenBy(api, p, home, events)
    ensures TakenBy(api, After(api, p, e), home, events + [e])
  {
    hide TakeOver, Restore, Snapshot, SnapshotOf, Succeeds, Borrowed;
    var all := events + [e];
    if p.active {
      var i :| 0 <= i < |events| && events[i].Activating? && events[i].attempt.handler != 0 &&
               Succeeds(api, events[i].attempt.take) && p.session == SnapshotOf(events[i].attempt, home);
      assert all[i] == events[i];
    } else if e.Activating? {
      assert all[|events|] == e;
      SuccessIsAlike(api, home, e.attempt.take);
      IdleIsHome(api, p, home);
    }
  }

  lemma IdleIsHome(api: Api, p: Plugin, home: Host)
    requires Borrowed(api, p, home) && !p.active
    ensures p.host == home
  {
  }

  lemma HarmlessStep(api: Api, p: Plugin, home: Host, events: seq<Event>, e: Event)
    requires TakenBy(api, p, home, events) && Harmless(api, home, events + [e])
    ensures !Spoils(api, p, home, e)
  {
    hide Recovers, SnapshotOf, Succeeds;
    var all := events + [e];
    assert all[|events|] == e;
    if e.Deactivating? && p.active {
      var i :| 0 <= i < |events| && events[i].Activating? && events[i].attempt.handler != 0 &&
               Succeeds(api, events[i].attempt.take) && p.session == SnapshotOf(events[i].attempt, home);
      assert all[i] == events[i];
      assert GivesBack(api, home, all[i].attempt, all[|events|].calls);
    } else if e.Activating? {
      assert RollsBack(api, home, all[|events|].attempt);
    }
  }

  lemma HarmlessPrefix(api: Api, home: Host, events: seq<Event>)
    requires events != [] && Harmless(api, home, events)
    ensures Harmless(api, home, events[..|events| - 1])
  {
    hide RollsBack, GivesBack;
  }

  lemma {:induction false} HarmlessRun(api: Api, p: Plugin, events: seq<Event>)
    requires Proper(api, p.host) && !p.active && p.session == NO_SESSION && Harmless(api, p.host, events)
    ensures NeverSpoilt(api, p, events) && TakenBy(api, AfterAll(api, p, events), p.host, events)
  {
    if events != [] {
      hide After, Proper, Spoils, Borrowed, AlwaysHome, TakenBy, Harmless, NeverSpoilt;
      var n := |events| - 1;
      HarmlessPrefix(api, p.host, events);
      HarmlessRun(api, p, events[..n]);
      HostComesBackExactly(api, p, events[..n]);
      NeverSpoiltSnoc(api, p, events);
      var q := AfterAll(api, p, events[..n]);
      assert events == events[..n] + [events[n]];
      HarmlessStep(api, q, p.host, events[..n], events[n]);
      TakenByStep(api, q, p.host, events[..n], events[n]);
    }
  }

  /** So a host comes back if every attempt, and every deactivation after it, is harmless. */
  lemma HostComesBack(api: Api, p: Plugin, events: seq<Event>)
    requires Proper(api, p.host) && !p.active && p.session == NO_SESSION && Harmless(api, p.host, events)
    ensures AlwaysHome(api, p, events)
  {
    hide AlwaysHome, NeverSpoilt, Harmless, Proper;
    HarmlessRun(api, p, events);
    HostComesBackExactly(api, p, events);
  }

  /** Every query and every call of a restore succeeds. */
  predicate Obliging(events: seq<Event>) {
    forall i :: 0 <= i < |events| ==>
      && (events[i].Activating? ==> events[i].attempt.queries == ALL_READ && events[i].attempt.giveBack == GOOD)
      && (events[i].Deactivating? ==> events[i].calls == GOOD)
  }

  /** In particular a host that offers everything, answers every query and every call of a
      restore, and had its own device open or none; calls of a takeover may fail. */
  lemma EquippedHostComesBack(api: Api, p: Plugin, events: seq<Event>)
    requires Proper(api, p.host) && !p.active && p.session == NO_SESSION
    requires Equipped(api) && !OnCustom(p.host) && Obliging(events)
    ensures AlwaysHome(api, p, events)
  {
    hide AlwaysHome, Recovers, Equipped, Proper, OnCustom, Snapshot;
    forall a: Attempt | a.queries == ALL_READ && a.handler != 0
      ensures Recovers(api, p.host, SnapshotOf(a, p.host), a.take, GOOD)
      ensures Recovers(api, p.host, SnapshotOf(a, p.host), GOOD, GOOD)
    {
      EquippedHostRecovers(api, p.host, a.handler, a.take);
      EquippedHostRecovers(api, p.host, a.handler, GOOD);
    }
    HostComesBack(api, p, events);
  }

  /** And one round that does not: an attempt that succeeds and is ended against the condition,
      or one that fails and is rolled back against it, leaves a host that is not as it was. */
  lemma OneRoundSpoils(api: Api, p: Plugin, a: Attempt, self: bool, v: Verdicts)
    requires Proper(api, p.host) && !p.active && p.session == NO_SESSION && Attempts(api, p, a)
    ensures AlwaysHome(api, p, [Activating(a), Deactivating(self, v)]) <==>
            Recovers(api, p.host, SnapshotOf(a, p.host), a.take, if Succeeds(api, a.take) then v else a.giveBack)
  {
    hide AlwaysHome, Recovers, Succeeds, Proper, TakeOver, SnapshotOf;
    var events := [Activating(a), Deactivating(self, v)];
    HostComesBackExactly(api, p, events);
    assert events[..0] == [] && events[..1] == [events[0]] && events[..1][..0] == [];
    var q := AfterAll(api, p, events[..1]);
    assert q == Activate(api, p, a).0;
    SuccessIsAlike(api, p.host, a.take);
    assert q.active <==> Succeeds(api, a.take);
    if Succeeds(api, a.take) { RecoversAlike(api, p.host, SnapshotOf(a, p.host), a.take, v); }
    assert Spoils(api, AfterAll(api, p, events[..0]), p.host, events[0]) <==>
           !Succeeds(api, a.take) && !Recovers(api, p.host, SnapshotOf(a, p.host), a.take, a.giveBack);
  }

  lemma RecoversAlike(api: Api, h: Host, s: Session, v: Verdicts, r: Verdicts)
    requires Succeeds(api, v)
    ensures Recovers(api, h, s, v, r) <==> Recovers(api, h, s, GOOD, r)
  {
  }

  // ---------- The capture loop ----------

  /** One round of media_capture_loop: did the bridge fill the buffer, and did the host take it. */
  datatype Tick = Tick(filled: bool, taken: bool)

  datatype LoopEnd = Stopped | Superseded | GaveBack

  /** The loop deactivates playback itself once the bridge has stopped filling, or as soon as
      the host refuses the audio. `observed` says that a buffer was filled before. */
  function CaptureLoop(api: Api, p: Plugin, handler: u64, ticks: seq<Tick>,
    observed: bool, v: Verdicts): (Plugin, LoopEnd)
    decreases |ticks|
  {
    if ticks == [] then (p, Stopped)
    else if !p.active || p.session.handler != handler then (p, Superseded)
    else if ticks[0].filled && ticks[0].taken then CaptureLoop(api, p, handler, ticks[1..], true, v)
    else if !ticks[0].filled && !observed then CaptureLoop(api, p, handler, ticks[1..], false, v)
    else (Deactivate(api, p, true, v).0, GaveBack)
  }

  /** The loop ends by giving the host back exactly when some buffer was refused, or one was not
      filled after one that was; and then the host is as it was before the takeover exactly when
      the calls that restore it meet the condition of RestoredExactlyWhen. */
  lemma {:induction false} LoopGivesBack(api: Api, p: Plugin, handler: u64, ticks: seq<Tick>,
    observed: bool, home: Host, v: Verdicts)
    requires Proper(api, home) && Borrowed(api, p, home) && p.active && p.session.handler == handler
    ensures var (q, end) := CaptureLoop(api, p, handler, ticks, observed, v);
            && (end.GaveBack? <==> PlaybackEnds(ticks, observed))
            && (end.GaveBack? ==> !q.active && q.session == NO_SESSION && q.thread == p.thread)
            && (end.GaveBack? ==> (q.host == home <==> Recovers(api, home, p.session, GOOD, v)))
            && (!end.GaveBack? ==> q == p)
    decreases |ticks|
  {
    hide Restore, TakeOver, Snapshot, Recovers, Proper;
    var read :| p.session == Snapshot(read, home, handler);
    RestoredExactlyWhen(api, read, home, handler, GOOD, v);
    if ticks != [] {
      if ticks[0].filled && ticks[0].taken {
        LoopGivesBack(api, p, handler, ticks[1..], true, home, v);
        EndsLater(ticks, observed, true);
      } else if !ticks[0].filled && !observed {
        LoopGivesBack(api, p, handler, ticks[1..], false, home, v);
        EndsLater(ticks, observed, false);
      } else {
        assert EndsAt(ticks, observed, 0);
      }
    }
  }

  predicate FilledBefore(ticks: seq<Tick>, i: nat) {
    exists j :: 0 <= j < i && j < |ticks| && ticks[j].filled
  }

  predicate EndsAt(ticks: seq<Tick>, observed: bool, i: nat) {
    i < |ticks| && if ticks[i].filled then !ticks[i].taken else observed || FilledBefore(ticks, i)
  }

  ghost predicate PlaybackEnds(ticks: seq<Tick>, observed: bool) {
    exists i: nat :: EndsAt(ticks, observed, i)
  }

  lemma EndsLater(ticks: seq<Tick>, observed: bool, later: bool)
    requires ticks != []
    requires if ticks[0].filled then ticks[0].taken && later else !observed && !later
    ensures PlaybackEnds(ticks[1..], later) <==> PlaybackEnds(ticks, observed)
  {
    var rest := ticks[1..];
    forall i: nat ensures EndsAt(rest, later, i) <==> EndsAt(ticks, observed, i + 1) {
      if i < |rest| && !rest[i].filled {
        assert rest[i] == ticks[i + 1];
        FilledShift(ticks, i);
      }
    }
    assert !EndsAt(ticks, observed, 0);
    if i: nat :| EndsAt(ticks, observed, i) {
      assert EndsAt(rest, later, i - 1);
    }
    if i: nat :| EndsAt(rest, later, i) {
      assert EndsAt(ticks, observed, i + 1);
    }
  }

  lemma FilledShift(ticks: seq<Tick>, i: nat)
    requires ticks != []
    ensures FilledBefore(ticks, i + 1) <==> ticks[0].filled || FilledBefore(ticks[1..], i)
  {
    var rest := ticks[1..];
    if j :| 0 <= j < i + 1 && j < |ticks| && ticks[j].filled {
      if j > 0 { assert rest[j - 1].filled; }
    }
    if j :| 0 <= j < i && j < |rest| && rest[j].filled {
      assert ticks[j + 1].filled;
    }
  }

  // ---------- Any interleaving of the locked blocks ----------

  /** What media_capture_thread_ holds: nothing, a loop that plays, or one that has given its
      session back itself and only has to return. */
  datatype Loop = NoThread | Running | Leaving

  /** The shared state, with a number for every snapshot. `pending` are taken but not committed,
      `handed` were given to a restore, in that order, `lost` were overwritten, and `dropped`
      were cleared without a restore. `stalled` says that a running loop was once joined by an
      activator that held the mutex the loop needs. */
  datatype Hand = Hand(
    active: bool, session: Option<nat>, loop: Loop, pending: set<nat>, next: nat,
    handed: seq<nat>, lost: set<nat>, dropped: set<nat>, stalled: bool)

  const EMPTY_HAND: Hand := Hand(false, None, NoThread, {}, 0, [], {}, {}, false)

  datatype Block =
    | Reap                    // an activator joins a thread left over from playback that ended
    | Begin                   // an activator finds playback inactive and takes a snapshot
    | Commit(ticket: nat)     // its takeover succeeded
    | GiveUp(ticket: nat)     // its takeover failed, and it restores its own snapshot
    | Release(self: bool, offered: bool)   // a deactivator takes the session away
    | Retire                  // shutdown takes over whatever thread is left

  function AfterBlock(h: Hand, b: Block): Hand {
    match b
    case Reap => if h.active then h else h.(loop := NoThread)
    case Begin => if h.active then h else h.(pending := h.pending + {h.next}, next := h.next + 1)
    case Commit(t) =>
      if t !in h.pending then h
      else h.(active := true, session := Some(t), loop := Running, pending := h.pending - {t},
              lost := h.lost + if h.session.Some? then {h.session.value} else {},
              stalled := h.stalled || h.loop.Running?)
    case GiveUp(t) => if t !in h.pending then h else h.(pending := h.pending - {t}, handed := h.handed + [t])
    case Release(self, offered) =>
      if !h.active && h.loop.NoThread? then h
      else
        var given := if h.session.Some? then [h.session.value] else [];
        var cleared := h.(active := false, session := None,
                          loop := if self && !h.loop.NoThread? then Leaving else NoThread);
        // Without the host's functions the session is cleared before it is looked at.
        if offered then cleared.(handed := h.handed + given)
        else cleared.(dropped := h.dropped + if h.session.Some? then {h.session.value} else {})
    case Retire => h.(loop := NoThread)
  }

  function RunBlocks(blocks: seq<Block>): Hand {
    if blocks == [] then EMPTY_HAND else AfterBlock(RunBlocks(blocks[..|blocks| - 1]), blocks[|blocks| - 1])
  }

  predicate InSession(h: Hand, t: nat) {
    h.session == Some(t)
  }

  /** Every snapshot is in one place only. */
  predicate Accounted(h: Hand) {
    && (h.active <==> h.session.Some?)
    && (forall t :: t in h.pending ==>
          t < h.next && t !in h.handed && t !in h.lost && t !in h.dropped && !InSession(h, t))
    && (forall t :: t in h.handed ==> t < h.next && t !in h.lost && t !in h.dropped && !InSession(h, t))
    && (forall t :: t in h.lost ==> t < h.next && t !in h.dropped && !InSession(h, t))
    && (forall t :: t in h.dropped ==> t < h.next && !InSession(h, t))
    && (h.session.Some? ==> h.session.value < h.next)
    && (forall i, j :: 0 <= i < j < |h.handed| ==> h.handed[i] != h.handed[j])
    && (forall t :: 0 <= t < h.next ==>
          t in h.pending || t in h.handed || t in h.lost || t in h.dropped || InSession(h, t))
  }

  lemma AccountedBlock(h: Hand, b: Block)
    requires Accounted(h)
    ensures Accounted(AfterBlock(h, b))
  {
    match b
    case Commit(t) => CommitAccounted(h, t);
    case GiveUp(t) => HandOut(h, t);
    case Release(self, offered) => ReleaseAccounted(h, self, offered);
    case Begin => BeginAccounted(h);
    case Reap =>
    case Retire =>
  }

  lemma CommitAccounted(h: Hand, t: nat)
    requires Accounted(h)
    ensures Accounted(AfterBlock(h, Commit(t)))
  {
  }

  lemma HandOut(h: Hand, t: nat)
    requires Accounted(h)
    ensures Accounted(AfterBlock(h, GiveUp(t)))
  {
  }

  lemma BeginAccounted(h: Hand)
    requires Accounted(h)
    ensures Accounted(AfterBlock(h, Begin))
  {
  }

  lemma ReleaseAccounted(h: Hand, self: bool, offered: bool)
    requires Accounted(h)
    ensures Accounted(AfterBlock(h, Release(self, offered)))
  {
    var g := AfterBlock(h, Release(self, offered));
    if h.session.Some? && g != h && offered {
      var t := h.session.value;
      assert g.handed == h.handed + [t] && t !in h.handed;
      forall i, j | 0 <= i < j < |g.handed| ensures g.handed[i] != g.handed[j] {
        assert h.handed[i] in h.handed;
      }
    }
  }

  lemma {:induction false} AlwaysAccounted(blocks: seq<Block>)
    ensures Accounted(RunBlocks(blocks))
  {
    if blocks != [] {
      hide AfterBlock, Accounted;
      AlwaysAccounted(blocks[..|blocks| - 1]);
      AccountedBlock(RunBlocks(blocks[..|blocks| - 1]), blocks[|blocks| - 1]);
    } else {
      EmptyIsAccounted();
    }
  }

  lemma EmptyIsAccounted()
    ensures Accounted(EMPTY_HAND) && RunBlocks([]) == EMPTY_HAND
  {
  }

  /** Under any interleaving of activators and deactivators no snapshot is handed to two
      restores, and one that was handed out is not kept anywhere. */
  lemma AtMostOneRestore(blocks: seq<Block>)
    ensures var h := RunBlocks(blocks);
            && (forall i, j :: 0 <= i < j < |h.handed| ==> h.handed[i] != h.handed[j])
            && (forall t :: t in h.handed ==> t !in h.pending && h.session != Some(t))
            && (!h.active ==> h.session == None)
  {
    hide RunBlocks;
    AlwaysAccounted(blocks);
  }

  /** No activation begins while another is under way. */
  predicate OneAtATime(blocks: seq<Block>) {
    blocks == [] ||
    (OneAtATime(blocks[..|blocks| - 1]) &&
     (blocks[|blocks| - 1].Begin? ==> RunBlocks(blocks[..|blocks| - 1]).pending == {}))
  }

  lemma {:induction false} AlonePending(blocks: seq<Block>)
    requires OneAtATime(blocks)
    ensures var h := RunBlocks(blocks); h.lost == {} && |h.pending| <= 1 && (h.pending != {} ==> !h.active)
  {
    if blocks != [] {
      var before, last := RunBlocks(blocks[..|blocks| - 1]), blocks[|blocks| - 1];
      AlonePending(blocks[..|blocks| - 1]);
      AlwaysAccounted(blocks[..|blocks| - 1]);
      AloneBlock(before, last);
    }
  }

  lemma AloneBlock(h: Hand, b: Block)
    requires Accounted(h) && h.lost == {} && |h.pending| <= 1 && (h.pending != {} ==> !h.active)
    requires b.Begin? ==> h.pending == {}
    ensures var g := AfterBlock(h, b); g.lost == {} && |g.pending| <= 1 && (g.pending != {} ==> !g.active)
  {
    if (b.Commit? || b.GiveUp?) && b.ticket in h.pending {
      assert |h.pending - {b.ticket}| == 0;
    }
  }

  // What can go wrong, each as the guard of one block.

  /** A takeover is committed while another session is active. */
  predicate Overwrites(h: Hand, b: Block) {
    b.Commit? && b.ticket in h.pending && h.active
  }

  /** A session is cleared when the host's functions are not there. */
  predicate Drops(h: Hand, b: Block) {
    b.Release? && !b.offered && h.active
  }

  /** A takeover is committed while another loop runs. */
  predicate Stalls(h: Hand, b: Block) {
    b.Commit? && b.ticket in h.pending && h.loop.Running?
  }

  predicate Ever(fault: (Hand, Block) -> bool, blocks: seq<Block>) {
    exists i :: 0 <= i < |blocks| && fault(RunBlocks(blocks[..i]), blocks[i])
  }

  lemma EverSnoc(fault: (Hand, Block) -> bool, blocks: seq<Block>)
    requires blocks != []
    ensures var before, last := blocks[..|blocks| - 1], blocks[|blocks| - 1];
            Ever(fault, blocks) <==> Ever(fault, before) || fault(RunBlocks(before), last)
  {
    hide RunBlocks;
    var n := |blocks| - 1;
    var before := blocks[..n];
    assert forall i | 0 <= i < n :: before[..i] == blocks[..i] && before[i] == blocks[i];
    if i :| 0 <= i < |before| && fault(RunBlocks(before[..i]), before[i]) {
      assert fault(RunBlocks(blocks[..i]), blocks[i]);
    }
    if i :| 0 <= i < |blocks| && fault(RunBlocks(blocks[..i]), blocks[i]) {
      assert i < n ==> fault(RunBlocks(before[..i]), before[i]);
    }
  }

  lemma FaultBlock(h: Hand, b: Block)
    requires Accounted(h)
    ensures AfterBlock(h, b).lost != {} <==> h.lost != {} || Overwrites(h, b)
    ensures AfterBlock(h, b).dropped != {} <==> h.dropped != {} || Drops(h, b)
    ensures AfterBlock(h, b).stalled <==> h.stalled || Stalls(h, b)
  {
    hide Accounted;
    assert h.active <==> h.session.Some? by { SessionIsActive(h); }
    if h.session.Some? {
      assert h.session.value in h.lost + {h.session.value} && h.session.value in h.dropped + {h.session.value};
    }
  }

  lemma SessionIsActive(h: Hand)
    requires Accounted(h)
    ensures h.active <==> h.session.Some?
  {
  }

  /** Exactly when a snapshot is overwritten, when one is dropped, and when an activator waits
      for a running loop: some block met the guard in the state it found. */
  lemma {:induction false} FaultsExactlyWhen(blocks: seq<Block>)
    ensures RunBlocks(blocks).lost != {} <==> Ever(Overwrites, blocks)
    ensures RunBlocks(blocks).dropped != {} <==> Ever(Drops, blocks)
    ensures RunBlocks(blocks).stalled <==> Ever(Stalls, blocks)
  {
    if blocks != [] {
      hide AfterBlock, Accounted, Ever, Overwrites, Drops, Stalls;
      var before, last := blocks[..|blocks| - 1], blocks[|blocks| - 1];
      FaultsExactlyWhen(before);
      AlwaysAccounted(before);
      FaultBlock(RunBlocks(before), last);
      EverSnoc(Overwrites, blocks);
      EverSnoc(Drops, blocks);
      EverSnoc(Stalls, blocks);
    }
  }

  /** Once playback has ended and nothing is under way, every snapshot ever taken was handed to
      exactly one restore if and only if no takeover was committed over an active session and no
      session was cleared without the host's functions. */
  lemma ExactlyOneRestore(blocks: seq<Block>)
    requires !RunBlocks(blocks).active && RunBlocks(blocks).pending == {}
    ensures var h := RunBlocks(blocks);
            && ((forall t :: 0 <= t < h.next ==> t in h.handed) <==> !Ever(Overwrites, blocks) && !Ever(Drops, blocks))
            && ((forall t :: 0 <= t < h.next ==> t in h.handed) ==> |h.handed| == h.next)
            && (forall i, j :: 0 <= i < j < |h.handed| ==> h.handed[i] != h.handed[j])
  {
    hide RunBlocks, Ever;
    AlwaysAccounted(blocks);
    FaultsExactlyWhen(blocks);
    var h := RunBlocks(blocks);
    if h.lost != {} {
      var t :| t in h.lost;
    } else if h.dropped != {} {
      var t :| t in h.dropped;
    } else {
      CountDistinct(h.handed, h.next);
    }
  }

  lemma {:induction false} CountDistinct(s: seq<nat>, n: nat)
    requires forall i, j :: 0 <= i < j < |s| ==> s[i] != s[j]
    requires forall t :: t in s <==> 0 <= t < n
    ensures |s| == n
    decreases n
  {
    if n > 0 {
      assert n - 1 in s;
      var k :| 0 <= k < |s| && s[k] == n - 1;
      var rest := s[..k] + s[k + 1..];
      forall t: nat ensures t in rest <==> 0 <= t < n - 1 {
        if t < n - 1 {
          assert t in s;
          var i :| 0 <= i < |s| && s[i] == t;
          assert rest[if i < k then i else i - 1] == t;
        }
        if t in rest {
          var i :| 0 <= i < |rest| && rest[i] == t;
          assert t == s[if i < k then i else i + 1];
          assert t in s;
        }
      }
      CountDistinct(rest, n - 1);
    } else {
      FirstIsMember(s);
    }
  }

  lemma FirstIsMember(s: seq<nat>)
    ensures s != [] ==> s[0] in s
  {
  }

  /** For a caller that lets two activations overlap: the second commit overwrites the snapshot
      of the first and joins its running loop. */
  lemma OverlapLosesSnapshot()
    ensures var h := RunBlocks([Begin, Begin, Commit(0), Commit(1)]);
            h.lost == {0} && h.session == Some(1) && h.stalled
  {
    var b1, b2, b3, b4 := [Begin], [Begin, Begin], [Begin, Begin, Commit(0)], [Begin, Begin, Commit(0), Commit(1)];
    assert b1[..0] == [] && b2[..1] == b1 && b3[..2] == b2 && b4[..3] == b3;
    assert RunBlocks(b1) == AfterBlock(EMPTY_HAND, Begin);
    assert RunBlocks(b2) == AfterBlock(RunBlocks(b1), Begin);
    assert RunBlocks(b3) == AfterBlock(RunBlocks(b2), Commit(0));
    assert RunBlocks(b4) == AfterBlock(RunBlocks(b3), Commit(1));
  }

  // ---------- The plugin as an object ----------

  class PluginHostBackend {
    const api: Api
    var host: Host
    var available: bool
    var registered: bool
    var active: bool
    var session: Session
    var thread: bool
    ghost var hand: Hand

    ghost function View(): Plugin
      reads this
    {
      Plugin(host, available, registered, active, session, thread)
    }

    /** The numbered hand-over and the fields agree. */
    ghost predicate Valid()
      reads this
    {
      hand.active == active && (hand.loop.NoThread? <==> !thread) && (active ==> available)
      && (session.handler != 0 ==> hand.session.Some?) && (session.handler == 0 ==> session == NO_SESSION)
      && (active <==> session.handler != 0) && Accounted(hand)
    }

    constructor (offered: Api, initial: Host)
      ensures Valid() && View() == Plugin(initial, false, false, false, NO_SESSION, false) && api == offered
    {
      api, host := offered, initial;
      available, registered, active, session, thread := false, false, false, NO_SESSION, false;
      hand := EMPTY_HAND;
    }

    /** set_functions */
    method SetFunctions()
      requires Valid()
      modifies this`available
      ensures Valid() && View() == After(api, old(View()), Offering)
    {
      available := true;
    }

    method CloseCaptureDevice(v: Verdicts)
      modifies this`host
      ensures host == Closed(api, old(host), v)
    {
      if api.closes && v.close {
        host := host.(capture := None);
      }
    }

    /** activate_custom_capture_device */
    method TakeCaptureDevice(v: Verdicts) returns (ok: bool)
      modifies this`host
      ensures (host, ok) == TakeOver(api, old(host), v)
    {
      if !api.opens || !api.processes || !api.sets || !api.flushes {
        return false;
      }
      CloseCaptureDevice(v);
      if !v.open {
        return false;
      }
      host := host.(capture := Some(CUSTOM));
      if api.activates && !v.activate {
        return false;
      }
      if !v.deactivated {
        return false;
      }
      host := host.(deactivated := INPUT_ACTIVE);
      if !v.muted {
        return false;
      }
      host := host.(muted := MUTEINPUT_NONE);
      return v.flush;
    }

    /** restore_media_playback_session */
    method RestoreSession(s: Session, v: Verdicts) returns (ok: bool)
      modifies this`host
      ensures (host, ok) == Restore(api, old(host), s, v)
    {
      if s.handler == 0 {
        return true;
      }
      CloseCaptureDevice(v);
      if api.opens && (s.mode.Some? || s.device.Some?) {
        if !v.open {
          return false;
        }
        var mode := if s.mode.Some? then s.mode.value else [];
        var device := if s.device.Some? then s.device.value else [];
        host := host.(capture := Some(Opened(api, mode, device)));
        if api.activates && !v.activate {
          return false;
        }
      }
      if api.sets && api.flushes && (s.deactivated.Some? || s.muted.Some?) {
        if s.deactivated.Some? {
          if !v.deactivated {
            return false;
          }
          host := host.(deactivated := s.deactivated.value);
        }
        if s.muted.Some? {
          if !v.muted {
            return false;
          }
          host := host.(muted := s.muted.value);
        }
        return v.flush;
      }
      return true;
    }

    /** The second half of activate_media_playback: snapshot, takeover, and commit or roll back. */
    method SnapshotAndTake(a: Attempt) returns (result: Activation)
      requires Valid() && available && !active && a.handler != 0
      modifies this
      ensures Valid()
      ensures var s := SnapshotOf(a, old(host));
              var (taken, ok) := TakeOver(api, old(host), a.take);
              (View(), result) ==
              if ok then (old(View()).(host := taken, active := true, session := s, thread := true), Activated)
              else (old(View()).(host := Restore(api, taken, s, a.giveBack).0), TakeoverFailed)
    {
      hide Snapshot, TakeOver, Restore, Accounted;
      var snapshot := SnapshotOf(a, host);
      SnapshotKeepsHandler(a.queries, host, a.handler);
      ghost var ticket := hand.next;
      AccountedBlock(hand, Begin);
      hand := AfterBlock(hand, Begin);
      var taken := TakeCaptureDevice(a.take);
      if !taken {
        var restored := RestoreSession(snapshot, a.giveBack);
        AccountedBlock(hand, GiveUp(ticket));
        hand := AfterBlock(hand, GiveUp(ticket));
        return TakeoverFailed;
      }
      AccountedBlock(hand, Commit(ticket));
      hand := AfterBlock(hand, Commit(ticket));
      active, session, thread := true, snapshot, true;
      return Activated;
    }

    /** activate_media_playback */
    method ActivateMediaPlayback(a: Attempt) returns (result: Activation)
      requires Valid()
      modifies this
      ensures Valid() && (View(), result) == Activate(api, old(View()), a)
    {
      hide Snapshot, TakeOver, Restore, Accounted;
      AccountedBlock(hand, Reap);
      hand := AfterBlock(hand, Reap);
      if !active && thread {
        thread := false;
      }
      if !available {
        return NoFunctions;
      }
      if a.handler == 0 {
        return NotConnected;
      }
      if active {
        return AlreadyActive;
      }
      if !registered {
        if !api.registers || !a.register {
          return NotRegistered;
        }
        registered := true;
      }
      result := SnapshotAndTake(a);
    }

    /** deactivate_media_playback */
    method DeactivateMediaPlayback(self: bool, v: Verdicts) returns (ok: bool)
      requires Valid()
      modifies this
      ensures Valid() && (View(), ok) == Deactivate(api, old(View()), self, v)
    {
      hide Restore, Accounted;
      AccountedBlock(hand, Release(self, available));
      if !available {
        hand := AfterBlock(hand, Release(self, available));
        active, session := false, NO_SESSION;
        thread := thread && self;
        return true;
      }
      if !active && !thread {
        return true;
      }
      hand := AfterBlock(hand, Release(self, available));
      var s := session;
      active, session := false, NO_SESSION;
      if thread && !self {
        thread := false;
      }
      ok := RestoreSession(s, v);
    }

    /** media_capture_loop, with the outcomes of its rounds. */
    method RunCaptureLoop(handler: u64, ticks: seq<Tick>, v: Verdicts) returns (end: LoopEnd)
      requires Valid()
      modifies this
      ensures Valid() && (View(), end) == CaptureLoop(api, old(View()), handler, ticks, false, v)
    {
      hide Deactivate, Accounted;
      var observed := false;
      var round := 0;
      assert ticks[0..] == ticks;
      while round < |ticks|
        invariant 0 <= round <= |ticks| && Valid() && View() == old(View())
        invariant CaptureLoop(api, View(), handler, ticks[round..], observed, v) ==
                  CaptureLoop(api, View(), handler, ticks, false, v)
      {
        assert ticks[round..][0] == ticks[round] && ticks[round..][1..] == ticks[round + 1..];
        if !active || session.handler != handler {
          return Superseded;
        }
        if !ticks[round].filled {
          if observed {
            var ignored := DeactivateMediaPlayback(true, v);
            return GaveBack;
          }
        } else {
          observed := true;
          if !ticks[round].taken {
            var ignored := DeactivateMediaPlayback(true, v);
            return GaveBack;
          }
        }
        round := round + 1;
      }
      return Stopped;
    }
  }
}
