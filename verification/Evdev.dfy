/** The two key-event machines of hotkeys/providers/evdev_provider.go: the provider that matches registered
    hotkeys, and the capture session that records a new one. */
module Evdev {
  import opened Text
  import opened HotkeyParser
  import opened HotkeyKeys
  import opened KeyNames

  /** An input event; `isKey` says that its type is EV_KEY. Value 1 is key down, 2 is autorepeat. */
  datatype Event = Event(isKey: bool, code: nat, value: int)

  type Callback = nat

  // ----- Specification of the matcher

  datatype Matcher = Matcher(combos: set<string>, mods: KeyState, held: map<string, bool>)

  /** How one combination sees an event: whether it is an edge of its key, in which direction, and
      whether its modifiers are pressed. */
  datatype Signal = Signal(edge: bool, down: bool, enabled: bool)

  /** How events are read: what they do to the modifier state, whether they are an edge of a combination's key,
      and whether they leave its modifiers pressed. The matcher depends on nothing else. */
  datatype Reader = Reader(
    track: (KeyState, Event) -> KeyState,
    names: (Event, string) -> bool,
    enabled: (KeyState, string) -> bool)

  /** Both machines read key codes through a table. What is proved of them holds for every table of plain names,
      where the empty name stands for an unknown key; `KEYS` is the program's own. */
  datatype KeyTable = KeyTable(name: int -> string)

  ghost predicate PlainNames(t: KeyTable) {
    forall code, c :: c in t.name(code) ==> Plain(c)
  }

  type Keys = t: KeyTable | PlainNames(t) ghost witness KeyTable(GetKeyName)

  const KEYS: Keys := KeyTable(GetKeyName)

  function EventKeyName(keys: Keys, code: nat): string {
    if keys.name(code) != "" then keys.name(code) else UnknownKeyName(code)
  }

  function TrackModifier(u: Unicode, mods: KeyState, keyName: string, value: int): KeyState {
    if IsModifierKey(u, keyName) then mods[Lower(u, keyName) := value == 1] else mods
  }

  function Linux(u: Unicode, keys: Keys): Reader {
    Reader((mods, ev: Event) => if ev.isKey then TrackModifier(u, mods, EventKeyName(keys, ev.code), ev.value) else mods,
           (ev: Event, combo) => ev.isKey && ev.value != 2 && EqualFold(u, Parsed(u, combo).key, EventKeyName(keys, ev.code)),
           (mods, combo) => AllModifiersPressed(u, Parsed(u, combo).modifiers, mods))
  }

  function SignalOf(r: Reader, mods: KeyState, ev: Event, combo: string): Signal {
    Signal(r.names(ev, combo), ev.value == 1, r.enabled(r.track(mods, ev), combo))
  }

  /** A press needs all modifiers, a release a pending press. */
  predicate Fires(signal: Signal, held: bool) {
    signal.edge && if signal.down then signal.enabled else held
  }

  /** The combinations that one event fires. */
  function Fired(r: Reader, m: Matcher, ev: Event): set<string> {
    set c | c in m.combos && Fires(SignalOf(r, m.mods, ev, c), Down(m.held, c))
  }

  function SetFlags(held: map<string, bool>, due: set<string>, pressed: bool): map<string, bool> {
    held + map c | c in due :: pressed
  }

  /** The matcher after one event. */
  function Deliver(r: Reader, m: Matcher, ev: Event): Matcher {
    m.(mods := r.track(m.mods, ev), held := SetFlags(m.held, Fired(r, m, ev), ev.value == 1))
  }

  // ----- The provider

  class EvdevKeyboardProvider {
    var callbacks: map<string, Callback>
    var modifierState: KeyState
    var held: map<string, bool>

    constructor ()
      ensures State() == Matcher({}, map[], map[])
    {
      callbacks, modifierState, held := map[], map[], map[];
    }

    function State(): Matcher
      reads this
    {
      Matcher(callbacks.Keys, modifierState, held)
    }

    method RegisterHotkey(id: string, hotkey: string, callback: Callback)
      modifies this
      ensures callbacks == old(callbacks)[hotkey := callback]
      ensures State() == old(State()).(combos := old(State()).combos + {hotkey})
    {
      callbacks := callbacks[hotkey := callback];
    }

    // One iteration of listenDevice
    method OnInputEvent(u: Unicode, event: Event) returns (fire: seq<Callback>, ghost order: seq<string>)
      modifies this
      ensures State() == Deliver(Linux(u, KEYS), old(State()), event) && callbacks == old(callbacks)
      ensures Distinct(order) && Elements(order) == Fired(Linux(u, KEYS), old(State()), event)
      ensures |fire| == |order| && forall i :: 0 <= i < |fire| ==> order[i] in callbacks && fire[i] == callbacks[order[i]]
    {
      if event.isKey {
        fire, order := HandleKeyEvent(u, event);
      } else {
        QuietEvent(u, KEYS, State(), event);
        fire, order := [], [];
      }
    }

    /** Updates the matcher and returns the callbacks to run, which then all get the argument `event.value == 1`. */
    method HandleKeyEvent(u: Unicode, event: Event) returns (fire: seq<Callback>, ghost order: seq<string>)
      requires event.isKey
      modifies this
      ensures State() == Deliver(Linux(u, KEYS), old(State()), event) && callbacks == old(callbacks)
      ensures Distinct(order) && Elements(order) == Fired(Linux(u, KEYS), old(State()), event)
      ensures |fire| == |order| && forall i :: 0 <= i < |fire| ==> order[i] in callbacks && fire[i] == callbacks[order[i]]
    {
      var keyName := GetKeyName(event.code);
      if keyName == "" {
        keyName := UnknownKeyName(event.code);
      }
      if IsModifierKey(u, keyName) {
        modifierState := modifierState[Lower(u, keyName) := event.value == 1];
      }
      assert keyName == EventKeyName(KEYS, event.code);
      assert modifierState == Linux(u, KEYS).track(old(modifierState), event);
      if event.value == 2 {
        QuietEvent(u, KEYS, old(State()), event);
        return [], [];
      }
      DueIsFired(u, KEYS, old(State()), event);
      fire, order := CollectDue(event.value == 1, DueTest(u, keyName, event.value == 1, modifierState, held));
    }

    /** The loop over the registered hotkeys, in any order. Each hotkey is visited once and sets only its own
        `held` flag, so testing against the flags from before the loop is the same as reading them live. */
    method CollectDue(pressed: bool, test: string -> bool) returns (fire: seq<Callback>, ghost order: seq<string>)
      modifies this`held
      ensures var due := Select(callbacks.Keys, test);
              held == SetFlags(old(held), due, pressed) && Distinct(order) && Elements(order) == due
      ensures |fire| == |order| && forall i :: 0 <= i < |fire| ==> order[i] in callbacks && fire[i] == callbacks[order[i]]
    {
      fire, order := [], [];
      ghost var due := Select(callbacks.Keys, test);
      var todo := callbacks.Keys;
      while todo != {}
        invariant todo <= callbacks.Keys
        invariant Distinct(order) && Elements(order) == due - todo
        invariant held == old(held) + map c | c in due - todo :: pressed
        invariant |fire| == |order|
        invariant forall i :: 0 <= i < |fire| ==> order[i] in callbacks && fire[i] == callbacks[order[i]]
      {
        var hotkeyStr :| hotkeyStr in todo;
        assert test(hotkeyStr) == (hotkeyStr in due);
        todo := todo - {hotkeyStr};
        if test(hotkeyStr) {
          SetOneFlag(due, todo, hotkeyStr, old(held), held, pressed);
          AppendOne(order, hotkeyStr);
          held := held[hotkeyStr := pressed];
          fire, order := fire + [callbacks[hotkeyStr]], order + [hotkeyStr];
        } else {
          assert due - todo == due - (todo + {hotkeyStr});
        }
      }
      assert due - todo == due;
    }
  }

  function Select(combos: set<string>, test: string -> bool): set<string> {
    set c | c in combos && test(c)
  }

  /** The test of handleKeyEvent for one registered hotkey. */
  predicate IsDue(u: Unicode, combo: string, keyName: string, pressed: bool, mods: KeyState, held: map<string, bool>) {
    var hotkey := Parsed(u, combo);
    && EqualFold(u, hotkey.key, keyName)
    && !((pressed && !AllModifiersPressed(u, hotkey.modifiers, mods)) || (!pressed && !Down(held, combo)))
  }

  function DueTest(u: Unicode, keyName: string, pressed: bool, mods: KeyState, held: map<string, bool>): string -> bool {
    c => IsDue(u, c, keyName, pressed, mods, held)
  }

  lemma DueIsFired(u: Unicode, keys: Keys, m: Matcher, ev: Event)
    requires ev.isKey && ev.value != 2
    ensures Select(m.combos, DueTest(u, EventKeyName(keys, ev.code), ev.value == 1, Linux(u, keys).track(m.mods, ev), m.held))
         == Fired(Linux(u, keys), m, ev)
  {
    forall c | c in m.combos
      ensures IsDue(u, c, EventKeyName(keys, ev.code), ev.value == 1, Linux(u, keys).track(m.mods, ev), m.held)
          <==> Fires(SignalOf(Linux(u, keys), m.mods, ev, c), Down(m.held, c))
    {
      IsDueMeansFires(u, keys, m.mods, ev, c, m.held);
    }
  }

  lemma IsDueMeansFires(u: Unicode, keys: Keys, mods: KeyState, ev: Event, combo: string, held: map<string, bool>)
    requires ev.isKey && ev.value != 2
    ensures IsDue(u, combo, EventKeyName(keys, ev.code), ev.value == 1, Linux(u, keys).track(mods, ev), held)
        <==> Fires(SignalOf(Linux(u, keys), mods, ev, combo), Down(held, combo))
  {
  }

  lemma QuietEvent(u: Unicode, keys: Keys, m: Matcher, ev: Event)
    requires !ev.isKey || ev.value == 2
    ensures Fired(Linux(u, keys), m, ev) == {}
    ensures Deliver(Linux(u, keys), m, ev) == m.(mods := Linux(u, keys).track(m.mods, ev))
  {
  }

  lemma SetOneFlag(due: set<string>, todo: set<string>, x: string, before: map<string, bool>, held: map<string, bool>, pressed: bool)
    requires x in due && x !in todo
    requires held == before + map c | c in due - (todo + {x}) :: pressed
    ensures held[x := pressed] == before + map c | c in due - todo :: pressed
  {
  }

  lemma AppendOne(order: seq<string>, x: string)
    requires Distinct(order) && x !in order
    ensures Distinct(order + [x]) && Elements(order + [x]) == Elements(order) + {x}
  {
  }

  // ----- The capture session

  datatype CaptureResult = Continue | StopWith(combo: string)

  function CaptureMods(u: Unicode, keys: Keys, mods: KeyState, ev: Event): KeyState {
    if ev.isKey && keys.name(ev.code) != "" then TrackModifier(u, mods, keys.name(ev.code), ev.value) else mods
  }

  /** Whether an event is the first edge of an ordinary key that the key table knows. */
  predicate EndsCapture(u: Unicode, keys: Keys, ev: Event) {
    ev.isKey && keys.name(ev.code) != "" && !IsModifierKey(u, keys.name(ev.code)) && ev.value == 1
  }

  function Captured(u: Unicode, keys: Keys, mods: KeyState, ev: Event): CaptureResult {
    if !EndsCapture(u, keys, ev) then Continue
    else if CheckCancelCondition(u, keys.name(ev.code), mods) then StopWith("")
    else StopWith(BuiltHotkey(u, Active(u, mods), keys.name(ev.code)))
  }

  class CaptureSession {
    var modState: KeyState

    constructor ()
      ensures modState == map[]
    {
      modState := map[];
    }

    /** Validation never rejects here, so an ordinary key always ends the capture. */
    method ProcessKeyEvent(u: Unicode, ev: Event) returns (shouldStop: bool, result: string)
      modifies this
      ensures modState == CaptureMods(u, KEYS, old(modState), ev)
      ensures Captured(u, KEYS, old(modState), ev) == if shouldStop then StopWith(result) else Continue
    {
      if !ev.isKey {
        return false, "";
      }
      var keyName := GetKeyName(ev.code);
      if keyName == "" || "BTN_" <= keyName {
        assert "BTN_"[0] !in keyName;
        return false, "";
      }
      if IsModifierKey(u, keyName) {
        modState := modState[Lower(u, keyName) := ev.value == 1];
        return false, "";
      }
      if ev.value != 1 {
        return false, "";
      }
      if CheckCancelCondition(u, keyName, modState) {
        return true, "";
      }
      var mods := BuildModifierState(u, modState);
      var combo := BuildHotkeyString(u, mods, keyName);
      CapturedComboIsValid(u, modState, keyName);
      var err := ValidateHotkey(u, combo);
      if err != Valid {
        return false, "";
      }
      return true, combo;
    }
  }

  lemma CapturedComboIsValid(u: Unicode, mods: KeyState, keyName: string)
    requires keyName != "" && (forall c :: c in keyName ==> Plain(c)) && !IsModifierKey(u, keyName)
    ensures var combo := BuiltHotkey(u, Active(u, mods), keyName);
            && Validated(u, combo) == Valid && combo != ""
            && Parsed(u, combo) == KeyCombination(Active(u, mods), keyName)
  {
    PlainIsClean(u, keyName);
    CapturedComboParses(u, mods, keyName);
    BuiltHotkeyIsNormal(u, Active(u, mods), keyName);
    TrimIsTrimmed(u, keyName);
    NormalFormIsValid(u, BuiltHotkey(u, Active(u, mods), keyName));
  }

  // ----- Runs

  function MatcherAfter(r: Reader, m: Matcher, evs: seq<Event>): Matcher {
    if evs == [] then m else Deliver(r, MatcherAfter(r, m, evs[..|evs| - 1]), evs[|evs| - 1])
  }

  /** The decisions for one combination over an event stream: true for a press, false for a release. */
  function Decisions(r: Reader, m: Matcher, evs: seq<Event>, combo: string): seq<bool> {
    if evs == [] then []
    else
      var init, last := evs[..|evs| - 1], evs[|evs| - 1];
      Decisions(r, m, init, combo) + if combo in Fired(r, MatcherAfter(r, m, init), last) then [last.value == 1] else []
  }

  function CaptureModsAfter(u: Unicode, keys: Keys, evs: seq<Event>): KeyState {
    if evs == [] then map[] else CaptureMods(u, keys, CaptureModsAfter(u, keys, evs[..|evs| - 1]), evs[|evs| - 1])
  }

  /** A capture session that reads `evs` waits for more. */
  predicate StillCapturing(u: Unicode, keys: Keys, evs: seq<Event>) {
    forall i :: 0 <= i < |evs| ==> Captured(u, keys, CaptureModsAfter(u, keys, evs[..i]), evs[i]) == Continue
  }

  /** `last` is the event after `init` that makes a capture session return `combo`. */
  predicate CaptureEnds(u: Unicode, keys: Keys, init: seq<Event>, last: Event, combo: string) {
    StillCapturing(u, keys, init) && Captured(u, keys, CaptureModsAfter(u, keys, init), last) == StopWith(combo)
  }

  /** A capture session reads exactly `evs` and returns `combo`. */
  predicate Captures(u: Unicode, keys: Keys, evs: seq<Event>, combo: string) {
    evs != [] && CaptureEnds(u, keys, evs[..|evs| - 1], evs[|evs| - 1], combo)
  }

  lemma {:induction false} CombosUnchanged(r: Reader, m: Matcher, evs: seq<Event>)
    ensures MatcherAfter(r, m, evs).combos == m.combos
  {
    if evs != [] {
      CombosUnchanged(r, m, evs[..|evs| - 1]);
    }
  }

  lemma DeliverOne(r: Reader, m: Matcher, ev: Event, combo: string)
    requires combo in m.combos
    ensures var fires := Fires(SignalOf(r, m.mods, ev, combo), Down(m.held, combo));
            && (combo in Fired(r, m, ev) <==> fires)
            && (Down(Deliver(r, m, ev).held, combo) == if fires then ev.value == 1 else Down(m.held, combo))
  {
  }

  /** A combination that sees no edge of its key fires nothing. */
  lemma {:induction false} SilentWithoutEdge(r: Reader, m: Matcher, evs: seq<Event>, combo: string)
    requires combo in m.combos && !Down(m.held, combo)
    requires forall i, mods :: 0 <= i < |evs| ==> !Fires(SignalOf(r, mods, evs[i], combo), false)
    ensures Decisions(r, m, evs, combo) == [] && !Down(MatcherAfter(r, m, evs).held, combo)
  {
    if evs != [] {
      var init, last := evs[..|evs| - 1], evs[|evs| - 1];
      SilentWithoutEdge(r, m, init, combo);
      CombosUnchanged(r, m, init);
      DeliverOne(r, MatcherAfter(r, m, init), last, combo);
    }
  }

  // ----- Capture and replay

  /** The capture session and the matcher see the same modifier state at every point of a stream. */
  lemma {:induction false} SameModifierState(u: Unicode, keys: Keys, m: Matcher, evs: seq<Event>)
    requires m.mods == map[]
    ensures MatcherAfter(Linux(u, keys), m, evs).mods == CaptureModsAfter(u, keys, evs)
  {
    if evs != [] {
      var last := evs[|evs| - 1];
      SameModifierState(u, keys, m, evs[..|evs| - 1]);
      UnknownKeyIsNoModifier(u, last.code);
    }
  }

  /** An event that does not end a capture is no press of an ordinary key. */
  lemma NoPressBeforeEnd(u: Unicode, keys: Keys, mods: KeyState, ev: Event, combo: string)
    requires forall c :: c in Parsed(u, combo).key ==> Plain(c)
    requires !IsModifierKey(u, Parsed(u, combo).key)
    requires !EndsCapture(u, keys, ev)
    ensures !Fires(SignalOf(Linux(u, keys), mods, ev, combo), false)
  {
    var key := Parsed(u, combo).key;
    UnknownKeyIsNotPlain(u, ev.code, key);
    PlainFoldIsEquality(u, key, keys.name(ev.code));
  }

  lemma {:induction false} SilentBeforeEnd(u: Unicode, keys: Keys, m: Matcher, evs: seq<Event>, combo: string)
    requires combo in m.combos && !Down(m.held, combo)
    requires (forall c :: c in Parsed(u, combo).key ==> Plain(c)) && !IsModifierKey(u, Parsed(u, combo).key)
    requires forall i :: 0 <= i < |evs| ==> !EndsCapture(u, keys, evs[i])
    ensures Decisions(Linux(u, keys), m, evs, combo) == [] && !Down(MatcherAfter(Linux(u, keys), m, evs).held, combo)
  {
    forall i, mods | 0 <= i < |evs| ensures !Fires(SignalOf(Linux(u, keys), mods, evs[i], combo), false) {
      NoPressBeforeEnd(u, keys, mods, evs[i], combo);
    }
    SilentWithoutEdge(Linux(u, keys), m, evs, combo);
  }

  lemma NamesOwnKey(u: Unicode, keys: Keys, ev: Event, combo: string)
    requires ev.isKey && ev.value == 1 && keys.name(ev.code) != ""
    requires Parsed(u, combo).key == keys.name(ev.code)
    ensures Linux(u, keys).names(ev, combo)
  {
  }

  lemma EnabledWhereBuilt(u: Unicode, keys: Keys, mods: KeyState, ev: Event, combo: string)
    requires keys.name(ev.code) != "" && !IsModifierKey(u, keys.name(ev.code))
    requires Parsed(u, combo).modifiers == Active(u, mods)
    ensures Linux(u, keys).enabled(Linux(u, keys).track(mods, ev), combo)
  {
    ActiveIsPressed(u, mods);
  }

  lemma CapturedMeans(u: Unicode, keys: Keys, mods: KeyState, ev: Event, combo: string)
    requires Captured(u, keys, mods, ev) == StopWith(combo) && combo != ""
    ensures EndsCapture(u, keys, ev)
    ensures Parsed(u, combo) == KeyCombination(Active(u, mods), keys.name(ev.code))
  {
    CapturedComboIsValid(u, mods, keys.name(ev.code));
  }

  /** The event that ends a capture is a press of the captured combination in the state it was captured in. */
  lemma EndFires(u: Unicode, keys: Keys, mods: KeyState, ev: Event, combo: string)
    requires Captured(u, keys, mods, ev) == StopWith(combo) && combo != ""
    ensures ev.value == 1 && Fires(SignalOf(Linux(u, keys), mods, ev, combo), false)
    ensures var key := Parsed(u, combo).key;
            (forall c :: c in key ==> Plain(c)) && !IsModifierKey(u, key)
  {
    CapturedMeans(u, keys, mods, ev, combo);
    NamesOwnKey(u, keys, ev, combo);
    EnabledWhereBuilt(u, keys, mods, ev, combo);
  }

  lemma ActiveIsPressed(u: Unicode, mods: KeyState)
    ensures AllModifiersPressed(u, Active(u, mods), mods)
  {
  }

  lemma BeforeEnd(u: Unicode, keys: Keys, evs: seq<Event>, i: nat)
    requires StillCapturing(u, keys, evs) && i < |evs|
    ensures !EndsCapture(u, keys, evs[i])
  {
    ContinueMeans(u, keys, CaptureModsAfter(u, keys, evs[..i]), evs[i]);
  }

  lemma ContinueMeans(u: Unicode, keys: Keys, mods: KeyState, ev: Event)
    requires Captured(u, keys, mods, ev) == Continue
    ensures !EndsCapture(u, keys, ev)
  {
  }

  /** Different keys never pass for each other in a hotkey, whether the key table knows them or not. */
  lemma KeysDiffer(u: Unicode, code: nat, other: nat)
    ensures EqualFold(u, EventKeyName(KEYS, code), EventKeyName(KEYS, other)) <==> code == other
  {
    var a, b := EventKeyName(KEYS, code), EventKeyName(KEYS, other);
    if EqualFold(u, a, b) {
      if GetKeyName(code) != "" && GetKeyName(other) != "" {
        PlainFoldIsEquality(u, a, b);
        KeyNamesDiffer(code, other);
      } else if GetKeyName(code) != "" {
        UnknownKeyIsNotPlain(u, other, a);
      } else if GetKeyName(other) != "" {
        UnknownKeyIsNotPlain(u, code, b);
      } else {
        UnknownKeysDiffer(u, code, other);
      }
    }
  }

  // ----- What the machines' states mean

  /** A key event of the modifier key `k`. */
  predicate OfModifier(u: Unicode, keys: Keys, ev: Event, k: string) {
    ev.isKey && keys.name(ev.code) == k && IsModifierKey(u, k)
  }

  /** Event `i` is the last one of the modifier key `k`. */
  predicate LastOfModifier(u: Unicode, keys: Keys, evs: seq<Event>, k: string, i: nat) {
    i < |evs| && OfModifier(u, keys, evs[i], k) && forall j :: i < j < |evs| ==> !OfModifier(u, keys, evs[j], k)
  }

  /** A modifier key counts as down when its last event was a key down. An autorepeat, value 2, counts as not down. */
  ghost predicate DownInStream(u: Unicode, keys: Keys, evs: seq<Event>, k: string) {
    exists i: nat :: LastOfModifier(u, keys, evs, k, i) && evs[i].value == 1
  }

  lemma LastOfModifierSnoc(u: Unicode, keys: Keys, evs: seq<Event>, k: string)
    requires evs != []
    ensures DownInStream(u, keys, evs, k) <==>
            if OfModifier(u, keys, evs[|evs| - 1], k) then evs[|evs| - 1].value == 1 else DownInStream(u, keys, evs[..|evs| - 1], k)
  {
    var n := |evs| - 1;
    var init := evs[..n];
    if OfModifier(u, keys, evs[n], k) {
      assert LastOfModifier(u, keys, evs, k, n);
      assert forall i: nat :: LastOfModifier(u, keys, evs, k, i) ==> i == n;
    } else {
      assert forall i: nat :: i < n ==> evs[i] == init[i];
      assert forall i: nat :: LastOfModifier(u, keys, evs, k, i) <==> LastOfModifier(u, keys, init, k, i);
    }
  }

  lemma PlainNameIsLower(u: Unicode, keys: Keys, code: int)
    ensures Lower(u, keys.name(code)) == keys.name(code)
  {
    forall i | 0 <= i < |keys.name(code)| ensures Plain(keys.name(code)[i]) {
      assert keys.name(code)[i] in keys.name(code);
    }
  }

  lemma CaptureModsMean(u: Unicode, keys: Keys, mods: KeyState, ev: Event, k: string)
    ensures Down(CaptureMods(u, keys, mods, ev), k) <==> if OfModifier(u, keys, ev, k) then ev.value == 1 else Down(mods, k)
  {
    PlainNameIsLower(u, keys, ev.code);
  }

  /** In a capture a modifier key is down exactly when its last event in the stream was a key down. */
  lemma {:induction false} CaptureDownIff(u: Unicode, keys: Keys, evs: seq<Event>, k: string)
    ensures Down(CaptureModsAfter(u, keys, evs), k) <==> DownInStream(u, keys, evs, k)
  {
    if evs != [] {
      CaptureDownIff(u, keys, evs[..|evs| - 1], k);
      CaptureModsMean(u, keys, CaptureModsAfter(u, keys, evs[..|evs| - 1]), evs[|evs| - 1], k);
      LastOfModifierSnoc(u, keys, evs, k);
    }
  }

  /** In the provider too, from the start of its listening on. */
  lemma MatcherDownIff(u: Unicode, keys: Keys, m: Matcher, evs: seq<Event>, k: string)
    requires m.mods == map[]
    ensures Down(MatcherAfter(Linux(u, keys), m, evs).mods, k) <==> DownInStream(u, keys, evs, k)
  {
    SameModifierState(u, keys, m, evs);
    CaptureDownIff(u, keys, evs, k);
  }

  /** When an edge fires a registered combination: a key down if the key is the combination's and each of its modifiers is
      pressed, a key up if the key is the combination's and its last decision was a press. */
  lemma EdgeFiresIff(u: Unicode, keys: Keys, m: Matcher, evs: seq<Event>, ev: Event, combo: string)
    requires combo in m.combos && !Down(m.held, combo) && ev.isKey && ev.value != 2
    ensures var r := Linux(u, keys);
            var own := EqualFold(u, Parsed(u, combo).key, EventKeyName(keys, ev.code));
            var trace := Decisions(r, m, evs, combo);
            combo in Fired(r, MatcherAfter(r, m, evs), ev) <==>
              && own
              && if ev.value == 1
                 then forall mod :: mod in Parsed(u, combo).modifiers ==> IsModifierPressed(u, mod, MatcherAfter(r, m, evs + [ev]).mods)
                 else trace != [] && trace[|trace| - 1]
  {
    var r := Linux(u, keys);
    CombosUnchanged(r, m, evs);
    DeliverOne(r, MatcherAfter(r, m, evs), ev, combo);
    ReleaseFollowsPress(r, m, evs, combo);
    assert (evs + [ev])[..|evs|] == evs;
  }

  /** What a capture makes of an event, in the modifier state before it. */
  lemma CaptureOutcome(u: Unicode, keys: Keys, mods: KeyState, ev: Event)
    ensures var name := keys.name(ev.code);
            && (Captured(u, keys, mods, ev) == Continue <==> !(ev.isKey && ev.value == 1 && name != "" && !IsModifierKey(u, name)))
            && (Captured(u, keys, mods, ev) == StopWith("") <==>
                  ev.isKey && ev.value == 1 && name == "esc" && !IsModifierKey(u, name) && Active(u, mods) == [])
  {
    var name := keys.name(ev.code);
    if EndsCapture(u, keys, ev) {
      CapturedComboIsValid(u, mods, name);
      EscIsEsc(u, keys, ev.code);
      NothingActive(u, mods);
    }
  }

  lemma EscIsEsc(u: Unicode, keys: Keys, code: int)
    ensures EqualFold(u, keys.name(code), "esc") <==> keys.name(code) == "esc"
  {
    PlainFoldIsEquality(u, keys.name(code), "esc");
  }

  lemma NothingActive(u: Unicode, mods: KeyState)
    ensures Active(u, mods) == [] <==> forall k :: k in SIDED_MODIFIERS ==> !Down(mods, k)
  {
    ActiveUnfolded(u, mods);
  }

  /** A capture is cancelled exactly by Esc while no modifier key is down. */
  lemma CancelledIff(u: Unicode, keys: Keys, evs: seq<Event>, ev: Event)
    requires StillCapturing(u, keys, evs)
    ensures Captures(u, keys, evs + [ev], "") <==>
              && ev.isKey && ev.value == 1 && keys.name(ev.code) == "esc"
              && forall k :: k in SIDED_MODIFIERS ==> !DownInStream(u, keys, evs, k)
  {
    assert (evs + [ev])[..|evs|] == evs;
    CaptureOutcome(u, keys, CaptureModsAfter(u, keys, evs), ev);
    NothingActive(u, CaptureModsAfter(u, keys, evs));
    EscIsNoModifier(u);
    forall k | k in SIDED_MODIFIERS
      ensures Down(CaptureModsAfter(u, keys, evs), k) <==> DownInStream(u, keys, evs, k)
    {
      CaptureDownIff(u, keys, evs, k);
    }
  }

  lemma EscIsNoModifier(u: Unicode)
    ensures !IsModifierKey(u, "esc")
  {
    assert Lower(u, "esc") == "esc";
  }

  /** An ordinary key that is no cancellation ends every capture that is still under way, with a combination. */
  lemma OrdinaryKeyEndsCapture(u: Unicode, keys: Keys, evs: seq<Event>, ev: Event) returns (combo: string)
    requires StillCapturing(u, keys, evs) && EndsCapture(u, keys, ev)
    requires !CheckCancelCondition(u, keys.name(ev.code), CaptureModsAfter(u, keys, evs))
    ensures combo != "" && Captures(u, keys, evs + [ev], combo)
  {
    var mods := CaptureModsAfter(u, keys, evs);
    combo := BuiltHotkey(u, Active(u, mods), keys.name(ev.code));
    CapturedComboIsValid(u, mods, keys.name(ev.code));
    assert (evs + [ev])[..|evs|] == evs;
  }

  /** Capture and replay: whatever stream a capture turned into a combination, the same stream fed to a
      provider that has this combination registered fires its press, once, at the last event. */
  lemma CaptureReplay(u: Unicode, keys: Keys, evs: seq<Event>, combo: string, combos: set<string>)
    requires combo != "" && Captures(u, keys, evs, combo)
    requires combo in combos
    ensures var m, init := Matcher(combos, map[], map[]), evs[..|evs| - 1];
            && Decisions(Linux(u, keys), m, init, combo) == []
            && Decisions(Linux(u, keys), m, evs, combo) == [true]
  {
    var m, init, last := Matcher(combos, map[], map[]), evs[..|evs| - 1], evs[|evs| - 1];
    EndFires(u, keys, CaptureModsAfter(u, keys, init), last, combo);
    forall i | 0 <= i < |init| ensures !EndsCapture(u, keys, init[i]) {
      BeforeEnd(u, keys, init, i);
    }
    SilentBeforeEnd(u, keys, m, init, combo);
    SameModifierState(u, keys, m, init);
    CombosUnchanged(Linux(u, keys), m, init);
    DeliverOne(Linux(u, keys), MatcherAfter(Linux(u, keys), m, init), last, combo);
  }

  /** With nothing else registered, no event of the replayed stream but the last fires anything. */
  lemma CaptureReplayAlone(u: Unicode, keys: Keys, evs: seq<Event>, combo: string, i: nat)
    requires combo != "" && Captures(u, keys, evs, combo)
    requires i < |evs| - 1
    ensures Fired(Linux(u, keys), MatcherAfter(Linux(u, keys), Matcher({combo}, map[], map[]), evs[..i]), evs[i]) == {}
  {
    var m, seen := Matcher({combo}, map[], map[]), evs[..i];
    EndFires(u, keys, CaptureModsAfter(u, keys, evs[..|evs| - 1]), evs[|evs| - 1], combo);
    forall j | 0 <= j <= i ensures !EndsCapture(u, keys, evs[j]) {
      BeforeEnd(u, keys, evs[..|evs| - 1], j);
    }
    SilentBeforeEnd(u, keys, m, seen, combo);
    CombosUnchanged(Linux(u, keys), m, seen);
    var now := MatcherAfter(Linux(u, keys), m, seen);
    NoPressBeforeEnd(u, keys, now.mods, evs[i], combo);
    DeliverOne(Linux(u, keys), now, evs[i], combo);
    assert Fired(Linux(u, keys), now, evs[i]) <= {combo};
  }

  // ----- Decision traces

  /** The decisions of one combination as a machine of its own, over the signals it sees. */
  function Pending(signals: seq<Signal>): bool {
    if signals == [] then false
    else
      var init, last := signals[..|signals| - 1], signals[|signals| - 1];
      if Fires(last, Pending(init)) then last.down else Pending(init)
  }

  function Trace(signals: seq<Signal>): seq<bool> {
    if signals == [] then []
    else
      var init, last := signals[..|signals| - 1], signals[|signals| - 1];
      Trace(init) + if Fires(last, Pending(init)) then [last.down] else []
  }

  function Signals(r: Reader, m: Matcher, evs: seq<Event>, combo: string): (signals: seq<Signal>)
    ensures |signals| == |evs|
  {
    if evs == [] then []
    else
      var init, last := evs[..|evs| - 1], evs[|evs| - 1];
      Signals(r, m, init, combo) + [SignalOf(r, MatcherAfter(r, m, init).mods, last, combo)]
  }

  /** Combinations do not disturb each other: each one's decisions depend only on its own signals. */
  lemma {:induction false} DecisionsAreTrace(r: Reader, m: Matcher, evs: seq<Event>, combo: string)
    requires combo in m.combos && !Down(m.held, combo)
    ensures Decisions(r, m, evs, combo) == Trace(Signals(r, m, evs, combo))
    ensures Down(MatcherAfter(r, m, evs).held, combo) == Pending(Signals(r, m, evs, combo))
  {
    if evs != [] {
      var init, last := evs[..|evs| - 1], evs[|evs| - 1];
      DecisionsAreTrace(r, m, init, combo);
      CombosUnchanged(r, m, init);
      var signals := Signals(r, m, evs, combo);
      assert signals[..|signals| - 1] == Signals(r, m, init, combo);
      DeliverOne(r, MatcherAfter(r, m, init), last, combo);
    }
  }

  /** A release decision never comes first and never follows another release; a pending press is the last decision. */
  lemma {:induction false} TraceShape(signals: seq<Signal>)
    ensures var trace := Trace(signals);
            && (trace != [] ==> trace[0])
            && (forall i :: 0 < i < |trace| && !trace[i] ==> trace[i - 1])
            && (Pending(signals) <==> trace != [] && trace[|trace| - 1])
  {
    if signals != [] {
      TraceShape(signals[..|signals| - 1]);
    }
  }

  /** On every stream, decisions for a combination begin with a press, a release always follows a press,
      and `held` says whether the last decision was a press. */
  lemma ReleaseFollowsPress(r: Reader, m: Matcher, evs: seq<Event>, combo: string)
    requires combo in m.combos && !Down(m.held, combo)
    ensures var trace := Decisions(r, m, evs, combo);
            && (trace != [] ==> trace[0])
            && (forall i :: 0 < i < |trace| && !trace[i] ==> trace[i - 1])
            && (Down(MatcherAfter(r, m, evs).held, combo) <==> trace != [] && trace[|trace| - 1])
  {
    DecisionsAreTrace(r, m, evs, combo);
    TraceShape(Signals(r, m, evs, combo));
  }

  /** The edges, without autorepeat, among the signals. */
  function Edges(signals: seq<Signal>): seq<bool> {
    if signals == [] then []
    else
      var last := signals[|signals| - 1];
      Edges(signals[..|signals| - 1]) + if last.edge then [last.down] else []
  }

  /** The key never goes down twice without going up in between. */
  predicate WellFormed(edges: seq<bool>) {
    forall i :: 0 < i < |edges| && edges[i] ==> !edges[i - 1]
  }

  lemma {:induction false} TraceAlternates(signals: seq<Signal>)
    requires WellFormed(Edges(signals))
    ensures var trace, edges := Trace(signals), Edges(signals);
            && (forall i :: 0 <= i < |trace| ==> trace[i] == (i % 2 == 0))
            && (Pending(signals) ==> edges != [] && edges[|edges| - 1])
  {
    if signals != [] {
      var init := signals[..|signals| - 1];
      var before, after := Edges(init), Edges(signals);
      assert forall i :: 0 <= i < |before| ==> after[i] == before[i];
      TraceAlternates(init);
      TraceShape(init);
      if signals[|signals| - 1].edge && signals[|signals| - 1].down {
        assert before != [] ==> after[|before|] && !after[|before| - 1];
        assert !Pending(init);
      }
      assert Pending(init) <==> |Trace(init)| % 2 == 1;
    }
  }

  /** When the combination's key never goes down twice in a row, presses and releases strictly alternate,
      whatever its modifiers do. */
  lemma PressesAlternate(r: Reader, m: Matcher, evs: seq<Event>, combo: string)
    requires combo in m.combos && !Down(m.held, combo)
    requires WellFormed(Edges(Signals(r, m, evs, combo)))
    ensures var trace := Decisions(r, m, evs, combo);
            forall i :: 0 <= i < |trace| ==> trace[i] == (i % 2 == 0)
  {
    DecisionsAreTrace(r, m, evs, combo);
    TraceAlternates(Signals(r, m, evs, combo));
  }
}
