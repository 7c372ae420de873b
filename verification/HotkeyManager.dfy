/** The provider lifecycle of hotkeys/manager/manager.go and provider_fallback.go. */
module HotkeyManager {
  import opened Text

  datatype Kind = Evdev | Dbus | Dummy

  const TOGGLE_RECORDING := "toggle_recording"

  datatype HotkeyConfig = HotkeyConfig(startRecording: string, actionHotkeys: map<string, string>)

  datatype StartError = AlreadyRunning | RegistrationFailed | NoFallback | FallbackRegistrationFailed | FallbackFailed

  datatype Result = Ok | Err(error: StartError)

  /** The environment of one operation: which calls into the desktop succeed. */
  datatype World = World(startOk: bool, fallbackSupported: bool, fallbackStartOk: bool, restartOk: bool)

  // ----- Specification

  /** `used` says that some hotkey has been registered on the provider. */
  datatype ProviderState = ProviderState(kind: Kind, listening: bool, used: bool)

  /** `retired` are the providers that the manager has replaced, oldest first. */
  datatype ManagerState = ManagerState(provider: ProviderState, isListening: bool, retired: seq<ProviderState>)

  function Fresh(kind: Kind): ProviderState {
    ProviderState(kind, false, false)
  }

  // GetActionHotkey is blank
  predicate Unbound(u: Unicode, config: HotkeyConfig, action: string) {
    action in config.actionHotkeys ==> Trim(u, config.actionHotkeys[action]) == ""
  }

  /** An action is named like the recording hotkey itself. */
  predicate Clash(u: Unicode, config: HotkeyConfig, actions: set<string>) {
    TOGGLE_RECORDING in actions && !Unbound(u, config, TOGGLE_RECORDING)
  }

  /** Registering all hotkeys. Only the portal provider refuses an id, when it already has it. */
  function RegisterAll(p: ProviderState, clash: bool): (ProviderState, bool) {
    (p.(used := true), !(p.kind == Dbus && (p.used || clash)))
  }

  /** What a provider holds once all hotkeys are registered: evdev the combinations, the others the ids, of the recording
      hotkey and of every action that is bound. */
  function Registrations(u: Unicode, kind: Kind, config: HotkeyConfig, actions: set<string>): set<string> {
    if kind == Evdev then
      {config.startRecording} + set a | a in actions && !Unbound(u, config, a) :: config.actionHotkeys[a]
    else {TOGGLE_RECORDING} + set a | a in actions && !Unbound(u, config, a)
  }

  lemma RegistrationsStep(u: Unicode, kind: Kind, config: HotkeyConfig, done: set<string>, action: string)
    ensures Registrations(u, kind, config, done + {action}) == Registrations(u, kind, config, done)
              + if Unbound(u, config, action) then {} else {if kind == Evdev then config.actionHotkeys[action] else action}
  {
  }

  function StartOne(p: ProviderState, ok: bool): (ProviderState, bool) {
    if p.kind == Dummy || p.listening || !ok then (p, false) else (p.(listening := true), true)
  }

  function Replace(m: ManagerState, kind: Kind): ManagerState {
    m.(provider := Fresh(kind), retired := m.retired + [m.provider])
  }

  function StartFallback(m: ManagerState, clash: bool, w: World): (ManagerState, Result) {
    if m.provider.kind == Dummy || !w.fallbackSupported then (m, Err(NoFallback))
    else
      var m1 := Replace(m, if m.provider.kind == Evdev then Dbus else Evdev);
      var (registered, ok) := RegisterAll(m1.provider, clash);
      if !ok then (m1.(provider := registered), Err(FallbackRegistrationFailed))
      else
        var (started, ok) := StartOne(registered, w.fallbackStartOk);
        if ok then (m1.(provider := started, isListening := true), Ok)
        else (m1.(provider := started), Err(FallbackFailed))
  }

  /** The common tail of Start and ReloadConfig. */
  function StartCurrent(m: ManagerState, clash: bool, w: World): (ManagerState, Result) {
    var (registered, ok) := RegisterAll(m.provider, clash);
    if !ok then (m.(provider := registered), Err(RegistrationFailed))
    else
      var (started, ok) := StartOne(registered, w.startOk);
      if ok then (m.(provider := started, isListening := true), Ok)
      else StartFallback(m.(provider := registered), clash, w)
  }

  function Started(m: ManagerState, clash: bool, w: World): (ManagerState, Result) {
    if m.isListening then (m, Err(AlreadyRunning)) else StartCurrent(m, clash, w)
  }

  function Stopped(m: ManagerState): ManagerState {
    if m.isListening then m.(provider := m.provider.(listening := false), isListening := false) else m
  }

  function Reloaded(m: ManagerState, kind: Kind, clash: bool, w: World): (ManagerState, Result) {
    StartCurrent(Replace(Stopped(m), kind), clash, w)
  }

  function Captured(m: ManagerState, w: World): ManagerState {
    if m.provider.kind != Evdev then m
    else
      var quiet := m.provider.(listening := false);
      m.(provider := if m.isListening then StartOne(quiet, w.restartOk).0 else quiet)
  }

  // ----- The program

  class KeyboardProvider {
    const kind: Kind
    var listening: bool
    var registered: set<string>

    constructor (kind: Kind)
      ensures State() == Fresh(kind) && Valid() && registered == {}
    {
      this.kind, listening, registered := kind, false, {};
    }

    function State(): ProviderState
      reads this
    {
      ProviderState(kind, listening, registered != {})
    }

    // The recording hotkey is always registered first
    predicate Valid()
      reads this
    {
      kind == Dbus && registered != {} ==> TOGGLE_RECORDING in registered
    }

    // evdev keys its callbacks by the combination, the others by the id
    method RegisterHotkey(id: string, hotkey: string) returns (ok: bool)
      modifies this`registered
      ensures ok == !(kind == Dbus && id in old(registered))
      ensures registered == if ok then old(registered) + {if kind == Evdev then hotkey else id} else old(registered)
    {
      if kind == Dbus && id in registered {
        return false;
      }
      registered := registered + {if kind == Evdev then hotkey else id};
      return true;
    }

    method Start(ok: bool) returns (started: bool)
      modifies this`listening
      ensures (State(), started) == StartOne(old(State()), ok)
    {
      if kind == Dummy || listening || !ok {
        return false;
      }
      listening := true;
      return true;
    }

    method Stop()
      modifies this`listening
      ensures !listening
    {
      listening := false;
    }
  }

  class Manager {
    var config: HotkeyConfig
    var isListening: bool
    var hotkeyActions: set<string>
    var provider: KeyboardProvider
    ghost var replaced: seq<KeyboardProvider>
    ghost var retired: seq<ProviderState>

    /** `retired` records the present state of every provider object that the manager has replaced. */
    ghost predicate Valid()
      reads this, provider, replaced
    {
      && provider !in replaced && provider.Valid()
      && |replaced| == |retired|
      && forall i :: 0 <= i < |replaced| ==> replaced[i].State() == retired[i]
    }

    ghost function State(): ManagerState
      reads this, provider
    {
      ManagerState(provider.State(), isListening, retired)
    }

    constructor (config: HotkeyConfig, kind: Kind, actions: set<string>)
      ensures Valid() && fresh(provider)
      ensures State() == ManagerState(Fresh(kind), false, [])
    {
      this.config, isListening, hotkeyActions, replaced, retired := config, false, actions, [], [];
      provider := new KeyboardProvider(kind);
    }

    // h.provider = p
    method SetProvider(p: KeyboardProvider)
      requires Valid() && p != provider && p !in replaced && p.Valid()
      modifies this`provider, this`replaced, this`retired
      ensures Valid() && provider == p
      ensures retired == old(retired) + [old(provider.State())]
    {
      replaced, retired := replaced + [provider], retired + [provider.State()];
      provider := p;
    }

    method RegisterAllHotkeys(u: Unicode) returns (ok: bool)
      requires Valid()
      modifies provider`registered
      ensures Valid()
      ensures (provider.State(), ok) == RegisterAll(old(provider.State()), Clash(u, config, hotkeyActions))
      ensures ok ==> provider.registered == old(provider.registered) + Registrations(u, provider.kind, config, hotkeyActions)
    {
      ok := provider.RegisterHotkey(TOGGLE_RECORDING, config.startRecording);
      if !ok {
        return false;
      }
      ghost var first := provider.registered;
      assert provider.kind == Dbus ==> first == {TOGGLE_RECORDING};
      ghost var done: set<string> := {};
      var todo := hotkeyActions;
      while todo != {}
        invariant done <= hotkeyActions && todo == hotkeyActions - done
        invariant provider.registered == first + Registrations(u, provider.kind, config, done)
        invariant provider.kind == Dbus && Clash(u, config, hotkeyActions) ==> TOGGLE_RECORDING in todo
      {
        var action :| action in todo;
        RegistrationsStep(u, provider.kind, config, done, action);
        todo, done := todo - {action}, done + {action};
        if Unbound(u, config, action) {
          continue;
        }
        ok := provider.RegisterHotkey(action, config.actionHotkeys[action]);
        if !ok {
          return false;
        }
      }
      return true;
    }

    method StartFallbackAfterRegistration(u: Unicode, w: World) returns (result: Result)
      requires Valid()
      modifies this`provider, this`isListening, this`replaced, this`retired
      ensures Valid()
      ensures (State(), result) == StartFallback(old(State()), Clash(u, config, hotkeyActions), w)
      ensures provider == old(provider) || fresh(provider)
      ensures result == Ok ==> provider.registered == Registrations(u, provider.kind, config, hotkeyActions)
    {
      if provider.kind == Dummy || !w.fallbackSupported {
        return Err(NoFallback);
      }
      var fallback := new KeyboardProvider(if provider.kind == Evdev then Dbus else Evdev);
      SetProvider(fallback);
      var ok := RegisterAllHotkeys(u);
      if !ok {
        return Err(FallbackRegistrationFailed);
      }
      ok := provider.Start(w.fallbackStartOk);
      if !ok {
        return Err(FallbackFailed);
      }
      isListening := true;
      return Ok;
    }

    method Start(u: Unicode, w: World) returns (result: Result)
      requires Valid()
      modifies this`provider, this`isListening, this`replaced, this`retired, provider
      ensures Valid()
      ensures (State(), result) == Started(old(State()), Clash(u, config, hotkeyActions), w)
      ensures result == Ok ==> provider.registered == Registrations(u, provider.kind, config, hotkeyActions)
                                 + if provider == old(provider) then old(provider.registered) else {}
    {
      if isListening {
        return Err(AlreadyRunning);
      }
      var ok := RegisterAllHotkeys(u);
      if !ok {
        return Err(RegistrationFailed);
      }
      ok := provider.Start(w.startOk);
      if !ok {
        result := StartFallbackAfterRegistration(u, w);
        return;
      }
      isListening := true;
      return Ok;
    }

    method Stop()
      requires Valid()
      modifies this`isListening, provider`listening
      ensures Valid()
      ensures State() == Stopped(old(State()))
    {
      if isListening {
        provider.Stop();
        isListening := false;
      }
    }

    /** `kind` is what selectProviderForEnvironment chooses for the new configuration. */
    method ReloadConfig(u: Unicode, newConfig: HotkeyConfig, kind: Kind, w: World) returns (result: Result)
      requires Valid()
      modifies this, provider
      ensures Valid()
      ensures config == newConfig && hotkeyActions == old(hotkeyActions)
      ensures (State(), result) == Reloaded(old(State()), kind, Clash(u, newConfig, hotkeyActions), w)
      ensures result == Ok ==> provider.registered == Registrations(u, provider.kind, newConfig, hotkeyActions)
    {
      if isListening {
        provider.Stop();
        isListening := false;
      }
      config := newConfig;
      var selected := new KeyboardProvider(kind);
      SetProvider(selected);
      var ok := RegisterAllHotkeys(u);
      if !ok {
        return Err(RegistrationFailed);
      }
      ok := provider.Start(w.startOk);
      if !ok {
        result := StartFallbackAfterRegistration(u, w);
        return;
      }
      isListening := true;
      return Ok;
    }

    method CaptureOnce(w: World)
      requires Valid()
      modifies provider`listening
      ensures Valid()
      ensures State() == Captured(old(State()), w)
    {
      if provider.kind != Evdev {
        return;
      }
      provider.Stop();
      if isListening {
        var restarted := provider.Start(w.restartOk);
      }
    }
  }

  // ----- Runs

  datatype Operation =
    | StartOp(w: World)
    | StopOp
    | ReloadOp(kind: Kind, clash: bool, w: World)
    | CaptureOp(w: World)

  /** One operation; `clash` changes only with the configuration. */
  function Apply(m: ManagerState, clash: bool, op: Operation): ManagerState {
    match op
    case StartOp(w) => Started(m, clash, w).0
    case StopOp => Stopped(m)
    case ReloadOp(kind, newClash, w) => Reloaded(m, kind, newClash, w).0
    case CaptureOp(w) => Captured(m, w)
  }

  function ClashAfter(clash: bool, ops: seq<Operation>): bool {
    if ops == [] then clash
    else if ops[|ops| - 1].ReloadOp? then ops[|ops| - 1].clash
    else ClashAfter(clash, ops[..|ops| - 1])
  }

  function Run(m: ManagerState, clash: bool, ops: seq<Operation>): ManagerState {
    if ops == [] then m
    else
      var init := ops[..|ops| - 1];
      Apply(Run(m, clash, init), ClashAfter(clash, init), ops[|ops| - 1])
  }

  /** Any provider that listens is the current one, and the manager knows that it listens. */
  predicate NoLeak(m: ManagerState) {
    && (m.provider.listening ==> m.isListening)
    && forall p :: p in m.retired ==> !p.listening
  }

  lemma StartKeepsNoLeak(m: ManagerState, clash: bool, w: World)
    requires NoLeak(m) && !m.isListening
    ensures NoLeak(StartCurrent(m, clash, w).0)
  {
  }

  /** No leaked listener: over every run of operations with arbitrary failures and fallbacks. */
  lemma {:induction false} NoListenerLeaks(kind: Kind, clash: bool, ops: seq<Operation>)
    ensures NoLeak(Run(ManagerState(Fresh(kind), false, []), clash, ops))
  {
    if ops != [] {
      var init, op := ops[..|ops| - 1], ops[|ops| - 1];
      NoListenerLeaks(kind, clash, init);
      var m, c := Run(ManagerState(Fresh(kind), false, []), clash, init), ClashAfter(clash, init);
      match op {
        case StartOp(w) =>
          if !m.isListening {
            StartKeepsNoLeak(m, c, w);
          }
        case ReloadOp(newKind, newClash, w) =>
          StartKeepsNoLeak(Replace(Stopped(m), newKind), newClash, w);
        case _ =>
      }
    }
  }

  lemma OperationKeepsFlag(m: ManagerState, clash: bool, op: Operation)
    requires NoLeak(m) && (m.isListening <==> m.provider.listening)
    requires op.CaptureOp? ==> op.w.restartOk
    ensures Apply(m, clash, op).isListening <==> Apply(m, clash, op).provider.listening
  {
  }

  /** The manager's flag and the provider agree unless a restart after a capture failed. */
  lemma {:induction false} FlagAgrees(kind: Kind, clash: bool, ops: seq<Operation>)
    requires forall i :: 0 <= i < |ops| && ops[i].CaptureOp? ==> ops[i].w.restartOk
    ensures var m := Run(ManagerState(Fresh(kind), false, []), clash, ops);
            m.isListening <==> m.provider.listening
  {
    if ops != [] {
      var init := ops[..|ops| - 1];
      assert forall i :: 0 <= i < |init| ==> init[i] == ops[i];
      FlagAgrees(kind, clash, init);
      NoListenerLeaks(kind, clash, init);
      OperationKeepsFlag(Run(ManagerState(Fresh(kind), false, []), clash, init), ClashAfter(clash, init), ops[|ops| - 1]);
    }
  }

  function Other(kind: Kind): Kind {
    match kind
    case Evdev => Dbus
    case Dbus => Evdev
    case Dummy => Dummy
  }

  /** Whether all hotkeys can be registered on a provider. */
  predicate Registrable(kind: Kind, used: bool, clash: bool) {
    kind == Dbus ==> !used && !clash
  }

  /** Whether the provider of the other kind can take over. */
  predicate FallbackWorks(kind: Kind, clash: bool, w: World) {
    kind != Dummy && w.fallbackSupported && Registrable(Other(kind), false, clash) && w.fallbackStartOk
  }

  /** What a start answers in all cases. After a success the manager's own provider listens, or one of the other kind in its
      place; after a failure nothing listens. */
  lemma StartAnswers(m: ManagerState, clash: bool, w: World)
    requires NoLeak(m)
    ensures var (m', result) := Started(m, clash, w);
            var k := m.provider.kind;
            var registrable, own := Registrable(k, m.provider.used, clash), k != Dummy && w.startOk;
            && (result == Err(AlreadyRunning) <==> m.isListening)
            && (result == Err(RegistrationFailed) <==> !m.isListening && !registrable)
            && (result == Ok <==> !m.isListening && registrable && (own || FallbackWorks(k, clash, w)))
            && (result == Ok ==> m'.isListening && m'.provider.listening && m'.provider.kind == if own then k else Other(k))
            && (result != Ok && !m.isListening ==> !m'.isListening && !m'.provider.listening)
            && m'.retired == m.retired + if m.isListening || !registrable || own || k == Dummy || !w.fallbackSupported then []
                                         else [m.provider.(used := true)]
  {
    assert m.retired + [] == m.retired;
  }

  /** After a stop nothing listens. A capture pauses an evdev provider and leaves it listening exactly if the manager was
      listening and the restart works; on other providers it does nothing. */
  lemma StopAndCaptureLeave(m: ManagerState, w: World)
    requires NoLeak(m)
    ensures var m' := Stopped(m);
            !m'.isListening && !m'.provider.listening && m'.provider.kind == m.provider.kind && m'.retired == m.retired
    ensures var m' := Captured(m, w);
            && m'.isListening == m.isListening && m'.retired == m.retired && m'.provider.kind == m.provider.kind
            && (m'.provider.listening <==> if m.provider.kind == Evdev then m.isListening && w.restartOk else m.provider.listening)
  {
  }

  predicate ReloadWorks(kind: Kind, clash: bool, w: World) {
    match kind
    case Evdev => w.startOk || (w.fallbackSupported && !clash && w.fallbackStartOk)
    case Dbus => !clash && (w.startOk || (w.fallbackSupported && w.fallbackStartOk))
    case Dummy => false
  }

  /** A reload reports success exactly when a provider listens afterwards, whatever happened before it. */
  lemma ReloadOutcome(m: ManagerState, kind: Kind, clash: bool, w: World)
    requires NoLeak(m)
    ensures var (m', result) := Reloaded(m, kind, clash, w);
            && (result == Ok <==> m'.provider.listening)
            && (result == Ok <==> m'.isListening)
            && (result == Ok <==> ReloadWorks(kind, clash, w))
            && (result == Ok ==> m'.provider.kind == if w.startOk then kind else Other(kind))
            && (m'.retired == m.retired + [m.provider.(listening := false)]
                || m'.retired == m.retired + [m.provider.(listening := false), ProviderState(kind, false, true)])
  {
  }

  /** Exactly when starting can succeed at all: the portal provider can be started only on its first use. */
  lemma StartCanSucceed(m: ManagerState, clash: bool)
    requires NoLeak(m)
    ensures (exists w :: Started(m, clash, w).1 == Ok)
            <==> !m.isListening && m.provider.kind != Dummy && !(m.provider.kind == Dbus && (m.provider.used || clash))
  {
    var fine := World(true, true, true, true);
    if !m.isListening && m.provider.kind != Dummy && !(m.provider.kind == Dbus && (m.provider.used || clash)) {
      assert Started(m, clash, fine).1 == Ok;
    }
  }

  /** Stopping the manager and starting it again never works on the portal provider. */
  lemma NoRestartOnPortal(m: ManagerState, clash: bool, w: World, again: World)
    requires NoLeak(m)
    requires Started(m, clash, w).1 == Ok && Started(m, clash, w).0.provider.kind == Dbus
    ensures Started(Stopped(Started(m, clash, w).0), clash, again).1 == Err(RegistrationFailed)
  {
  }

  /** A run on which it does not: everything that can succeed does, and the second start fails all the same. */
  lemma PortalStopAndStart()
    ensures var fine := World(true, true, true, true);
            var s0 := ManagerState(Fresh(Dbus), false, []);
            var (s1, first) := Started(s0, false, fine);
            var (s2, second) := Started(Stopped(s1), false, fine);
            && s0 == Run(s0, false, []) && NoLeak(s0)
            && first == Ok && s1.provider.kind == Dbus && s1.provider.listening
            && second == Err(RegistrationFailed) && !s2.provider.listening
  {
  }
}
