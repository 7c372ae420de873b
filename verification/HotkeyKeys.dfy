/** Key codes, live modifier state and captured combinations, after hotkeys/utils/keys.go. */
module HotkeyKeys {
  import opened Text
  import opened HotkeyParser
  import opened KeyNames

  /** map[string]bool: a key that is absent reads as false. */
  type KeyState = map<string, bool>

  predicate Down(state: KeyState, key: string) {
    key in state && state[key]
  }

  function Decimal(n: nat): (r: string)
    ensures r != ""
    decreases n
  {
    var digit := ['0' + (n % 10) as char];
    if n < 10 then digit else Decimal(n / 10) + digit
  }

  // fmt.Sprintf("KEY_%d", keyCode)
  function UnknownKeyName(keyCode: nat): string {
    "KEY_" + Decimal(keyCode)
  }

  predicate IsModifierPressed(u: Unicode, mod: string, state: KeyState) {
    var m := Lower(u, mod);
    if m == "ctrl" || m == "alt" || m == "shift" then Down(state, "left" + m) || Down(state, "right" + m)
    else if m == "super" || m == "meta" || m == "win" then Down(state, "leftmeta") || Down(state, "rightmeta")
    else Down(state, ConvertModifierToEvdev(u, m))
  }

  // allModifiersPressed of evdev_provider.go
  predicate AllModifiersPressed(u: Unicode, mods: seq<string>, state: KeyState) {
    forall m :: m in mods ==> IsModifierPressed(u, m, state)
  }

  const SIDED_MODIFIERS: set<string> := {
    "leftctrl", "rightctrl", "leftalt", "rightalt", "leftshift", "rightshift", "leftmeta", "rightmeta"
  }

  predicate IsModifierKey(u: Unicode, keyName: string) {
    Lower(u, keyName) in SIDED_MODIFIERS || IsModifier(u, keyName)
  }

  predicate CheckCancelCondition(u: Unicode, keyName: string, state: KeyState) {
    EqualFold(u, keyName, "esc") && forall k :: k in SIDED_MODIFIERS ==> !Down(state, k)
  }

  /** The canonical modifiers that a state presses, in canonical order. */
  function Active(u: Unicode, state: KeyState): seq<string> {
    Pick(ORDER, set m | m in ORDER && IsModifierPressed(u, m, state))
  }

  method BuildModifierState(u: Unicode, state: KeyState) returns (mods: seq<string>)
    ensures mods == Active(u, state)
  {
    var ctrl := Down(state, "leftctrl") || Down(state, "rightctrl");
    var shift := Down(state, "leftshift") || Down(state, "rightshift");
    var alt := Down(state, "leftalt") || Down(state, "rightalt");
    var altgr := Down(state, "rightalt");
    var super := Down(state, "leftmeta") || Down(state, "rightmeta");
    mods := [];
    if ctrl {
      mods := mods + ["ctrl"];
    }
    assert mods == if ctrl then ["ctrl"] else [];
    ghost var before := mods;
    if shift {
      mods := mods + ["shift"];
    }
    assert mods == before + if shift then ["shift"] else [];
    before := mods;
    if alt {
      mods := mods + ["alt"];
    }
    assert mods == before + if alt then ["alt"] else [];
    before := mods;
    if altgr {
      mods := mods + ["altgr"];
    }
    assert mods == before + if altgr then ["altgr"] else [];
    before := mods;
    if super {
      mods := mods + ["super"];
    }
    assert mods == before + if super then ["super"] else [];
    ActiveUnfolded(u, state);
  }

  function BuiltHotkey(u: Unicode, mods: seq<string>, keyName: string): string {
    Normalized(u, if |mods| > 0 then Join(mods, '+') + "+" + Lower(u, keyName) else Lower(u, keyName))
  }

  method BuildHotkeyString(u: Unicode, mods: seq<string>, keyName: string) returns (combo: string)
    ensures combo == BuiltHotkey(u, mods, keyName)
  {
    combo := Lower(u, keyName);
    if |mods| > 0 {
      combo := Join(mods, '+') + "+" + combo;
    }
    combo := NormalizeHotkey(u, combo);
  }

  // ----- Modifier state

  lemma PressedInOrder(u: Unicode, state: KeyState)
    ensures IsModifierPressed(u, "ctrl", state) == (Down(state, "leftctrl") || Down(state, "rightctrl"))
    ensures IsModifierPressed(u, "shift", state) == (Down(state, "leftshift") || Down(state, "rightshift"))
    ensures IsModifierPressed(u, "alt", state) == (Down(state, "leftalt") || Down(state, "rightalt"))
    ensures IsModifierPressed(u, "altgr", state) == Down(state, "rightalt")
    ensures IsModifierPressed(u, "super", state) == (Down(state, "leftmeta") || Down(state, "rightmeta"))
  {
    OrderIsClean(u);
    assert forall m :: m in ORDER ==> Lower(u, m) == m;
    assert ORDER[0] == "ctrl" && ORDER[1] == "shift" && ORDER[2] == "alt" && ORDER[3] == "altgr" && ORDER[4] == "super";
    assert "left" + "ctrl" == "leftctrl" && "right" + "ctrl" == "rightctrl";
    assert "left" + "shift" == "leftshift" && "right" + "shift" == "rightshift";
    assert "left" + "alt" == "leftalt" && "right" + "alt" == "rightalt";
  }

  lemma ActiveUnfolded(u: Unicode, state: KeyState)
    ensures Active(u, state) ==
            (if Down(state, "leftctrl") || Down(state, "rightctrl") then ["ctrl"] else [])
            + (if Down(state, "leftshift") || Down(state, "rightshift") then ["shift"] else [])
            + (if Down(state, "leftalt") || Down(state, "rightalt") then ["alt"] else [])
            + (if Down(state, "rightalt") then ["altgr"] else [])
            + (if Down(state, "leftmeta") || Down(state, "rightmeta") then ["super"] else [])
  {
    PressedInOrder(u, state);
    var chosen := set m | m in ORDER && IsModifierPressed(u, m, state);
    PickFive("ctrl", "shift", "alt", "altgr", "super", chosen);
  }

  lemma {:induction false} PickFive(a: string, b: string, c: string, d: string, e: string, chosen: set<string>)
    ensures Pick([a, b, c, d, e], chosen) ==
            (if a in chosen then [a] else []) + (if b in chosen then [b] else []) + (if c in chosen then [c] else [])
            + (if d in chosen then [d] else []) + (if e in chosen then [e] else [])
  {
    var pA := if a in chosen then [a] else [];
    var pB := if b in chosen then [b] else [];
    var pC := if c in chosen then [c] else [];
    var pD := if d in chosen then [d] else [];
    var pE := if e in chosen then [e] else [];
    calc {
      Pick([a, b, c, d, e], chosen);
    == { assert [a, b, c, d, e] == [a] + [b, c, d, e]; PickCons(a, [b, c, d, e], chosen); }
      pA + Pick([b, c, d, e], chosen);
    == { assert [b, c, d, e] == [b] + [c, d, e]; PickCons(b, [c, d, e], chosen); }
      pA + (pB + Pick([c, d, e], chosen));
    == { assert [c, d, e] == [c] + [d, e]; PickCons(c, [d, e], chosen); }
      pA + (pB + (pC + Pick([d, e], chosen)));
    == { assert [d, e] == [d] + [e]; PickCons(d, [e], chosen); }
      pA + (pB + (pC + (pD + Pick([e], chosen))));
    == { assert [e] == [e] + []; PickCons(e, [], chosen); assert pE + [] == pE; }
      pA + (pB + (pC + (pD + pE)));
    }
    Regroup(pA, pB, pC, pD, pE);
  }

  lemma {:induction false} Regroup(a: seq<string>, b: seq<string>, c: seq<string>, d: seq<string>, e: seq<string>)
    ensures a + (b + (c + (d + e))) == a + b + c + d + e
  {
  }

  lemma PickCons(x: string, rest: seq<string>, chosen: set<string>)
    ensures Pick([x] + rest, chosen) == (if x in chosen then [x] else []) + Pick(rest, chosen)
  {
    assert ([x] + rest)[1..] == rest;
  }

  // ----- Key names

  lemma PlainIsClean(u: Unicode, name: string)
    requires name != "" && forall c :: c in name ==> Plain(c)
    ensures CleanPart(u, name)
  {
    assert name[0] in name && name[|name| - 1] in name;
  }

  lemma UnknownKeyIsNoModifier(u: Unicode, keyCode: nat)
    ensures !IsModifierKey(u, UnknownKeyName(keyCode))
  {
    var name := UnknownKeyName(keyCode);
    assert name[3] == '_' && Lower(u, name)[3] == '_';
    forall m | m in MODIFIERS + SIDED_MODIFIERS ensures '_' !in m {
    }
  }

  lemma UnknownKeyIsNotPlain(u: Unicode, keyCode: nat, key: string)
    requires forall c :: c in key ==> Plain(c)
    ensures !EqualFold(u, key, UnknownKeyName(keyCode))
  {
    var name := UnknownKeyName(keyCode);
    assert name[3] == '_';
    if |key| == |name| {
      assert key[3] in key;
    }
  }

  lemma PlainFoldIsEquality(u: Unicode, a: string, b: string)
    requires forall c :: c in a + b ==> Plain(c)
    ensures EqualFold(u, a, b) <==> a == b
  {
    if EqualFold(u, a, b) {
      forall i | 0 <= i < |a| ensures a[i] == b[i] {
        assert a[i] in a + b && b[i] in a + b;
      }
    }
  }

  lemma BuiltHotkeyIsNormal(u: Unicode, mods: seq<string>, keyName: string)
    ensures Normalized(u, BuiltHotkey(u, mods, keyName)) == BuiltHotkey(u, mods, keyName)
  {
    NormalizeIdempotent(u, if |mods| > 0 then Join(mods, '+') + "+" + Lower(u, keyName) else Lower(u, keyName));
  }

  // ----- Different keys

  function DecimalValue(digits: string): int {
    if digits == "" then 0 else 10 * DecimalValue(digits[..|digits| - 1]) + (digits[|digits| - 1] as int - '0' as int)
  }

  lemma {:induction false} DecimalRoundTrip(n: nat)
    ensures DecimalValue(Decimal(n)) == n
    ensures forall c :: c in Decimal(n) ==> '0' <= c <= '9'
    decreases n
  {
    var digit := ['0' + (n % 10) as char];
    assert DecimalValue(digit) == 10 * DecimalValue("") + n % 10;
    if n >= 10 {
      DecimalRoundTrip(n / 10);
      assert (Decimal(n / 10) + digit)[..|Decimal(n / 10)|] == Decimal(n / 10);
    }
  }

  /** Codes outside the key table differ by name too, also under case folding. */
  lemma UnknownKeysDiffer(u: Unicode, code: nat, other: nat)
    requires EqualFold(u, UnknownKeyName(code), UnknownKeyName(other))
    ensures code == other
  {
    var a, b := Decimal(code), Decimal(other);
    DecimalRoundTrip(code);
    DecimalRoundTrip(other);
    assert |UnknownKeyName(code)| == 4 + |a| && |UnknownKeyName(other)| == 4 + |b|;
    forall i | 0 <= i < |a| ensures u.fold(a[i]) == u.fold(b[i]) {
      assert UnknownKeyName(code)[4 + i] == a[i] && UnknownKeyName(other)[4 + i] == b[i];
    }
    PlainFoldIsEquality(u, a, b);
  }

  // ----- Main results

  /** Parsing a built combination gives back exactly its key and the active modifiers of the state it was
      built from. */
  lemma CapturedComboParses(u: Unicode, state: KeyState, keyName: string)
    requires CleanPart(u, Lower(u, keyName))
    ensures Parsed(u, BuiltHotkey(u, Active(u, state), keyName)) == KeyCombination(Active(u, state), Lower(u, keyName))
  {
    var mods, key := Active(u, state), Lower(u, keyName);
    if |mods| > 0 {
      JoinLast(mods, key);
    } else {
      assert mods + [key] == [key];
    }
    BuiltHotkeyParses(u, (set m | m in ORDER && IsModifierPressed(u, m, state)), key);
  }

  /** A combination built from one state matches another exactly when the other presses at least
      the same canonical modifiers. */
  lemma MatchingIsModifierSuperset(u: Unicode, state: KeyState, other: KeyState, keyName: string)
    requires CleanPart(u, Lower(u, keyName))
    ensures AllModifiersPressed(u, Parsed(u, BuiltHotkey(u, Active(u, state), keyName)).modifiers, other)
            <==> Elements(Active(u, state)) <= Elements(Active(u, other))
  {
    CapturedComboParses(u, state, keyName);
    if Elements(Active(u, state)) <= Elements(Active(u, other)) {
      forall m | m in Active(u, state) ensures IsModifierPressed(u, m, other) {
        assert m in Elements(Active(u, state));
      }
    }
  }

  lemma SidedModifierPressed(u: Unicode, o: string, state: KeyState)
    requires Lower(u, o) == o && o in SIDED_MODIFIERS
    ensures IsModifierPressed(u, o, state) == Down(state, o)
  {
    assert Lower(u, Lower(u, o)) == o;
    assert o != "ctrl" && o != "alt" && o != "shift" && o != "super" && o != "meta" && o != "win" && o != "altgr";
  }

  /** Apart from the generic names, a modifier counts as pressed exactly when the key of its own name is down. */
  lemma OwnKeyPressed(u: Unicode, o: string, state: KeyState)
    requires Lower(u, o) == o && o !in {"ctrl", "shift", "alt", "altgr", "super", "win", "meta"}
    ensures IsModifierPressed(u, o, state) == Down(state, o)
  {
    assert Lower(u, Lower(u, o)) == o;
    assert ConvertModifierToEvdev(u, o) == o;
  }

  lemma MapModifierTable(o: string)
    ensures o == "leftctrl" || o == "rightctrl" ==> MapModifier(o) == "ctrl"
    ensures o == "leftshift" || o == "rightshift" ==> MapModifier(o) == "shift"
    ensures o == "leftalt" ==> MapModifier(o) == "alt"
    ensures o == "rightalt" ==> MapModifier(o) == "altgr"
    ensures o == "leftmeta" || o == "rightmeta" || o == "win" || o == "meta" ==> MapModifier(o) == "super"
    ensures o !in SIDED_MODIFIERS && o != "win" && o != "meta" ==> MapModifier(o) == o
  {
  }

  lemma SynonymsOfSuper(u: Unicode, o: string, state: KeyState)
    requires Lower(u, o) == o && (o == "win" || o == "meta")
    requires IsModifierPressed(u, o, state)
    ensures Down(state, "leftmeta") || Down(state, "rightmeta")
  {
    assert o != "ctrl" && o != "alt" && o != "shift";
  }

  lemma MapModifierWeakens(u: Unicode, o: string, state: KeyState)
    requires Lower(u, o) == o
    requires IsModifierPressed(u, o, state)
    ensures IsModifierPressed(u, MapModifier(o), state)
  {
    MapModifierTable(o);
    PressedInOrder(u, state);
    if o in SIDED_MODIFIERS {
      SidedModifierPressed(u, o, state);
    } else if o == "win" || o == "meta" {
      SynonymsOfSuper(u, o, state);
    }
  }

  /** Normalising only weakens the modifier test: whatever presses all modifiers of a string also
      presses all modifiers of its normal form. */
  lemma NormalizeWeakens(u: Unicode, s: string, state: KeyState)
    requires AllModifiersPressed(u, Parsed(u, s).modifiers, state)
    ensures AllModifiersPressed(u, Parsed(u, Normalized(u, s)).modifiers, state)
  {
    forall m | m in Parsed(u, Normalized(u, s)).modifiers ensures IsModifierPressed(u, m, state) {
      var o := NormalFormModifiersAreMapped(u, s, m);
      var parts := Parts(u, s);
      assert forall p :: p in LowerAll(u, parts) ==> Lower(u, p) == p;
      MapModifierWeakens(u, o, state);
    }
  }

  // ----- When normalising changes nothing

  /** The modifier names that stand for their canonical name and no more. */
  const GENERIC: set<string> := {"ctrl", "shift", "alt", "altgr", "super", "win", "meta", "rightalt"}

  lemma OrderIsCanonical(m: string)
    requires m in GENERIC && m != "win" && m != "meta" && m != "rightalt"
    ensures MapModifier(m) == m && m in ORDER
  {
    MapModifierTable(m);
    assert ORDER[0] == "ctrl" && ORDER[1] == "shift" && ORDER[2] == "alt" && ORDER[3] == "altgr" && ORDER[4] == "super";
  }

  lemma SynonymIsCanonical(u: Unicode, m: string, state: KeyState)
    requires m == "rightalt" || m == "win" || m == "meta"
    ensures MapModifier(m) in ORDER && (IsModifierPressed(u, m, state) <==> IsModifierPressed(u, MapModifier(m), state))
  {
    SynonymPressed(u, m, state);
    SynonymMeans(u, m, state);
    MapModifierTable(m);
    assert ORDER[3] == "altgr" && ORDER[4] == "super";
  }

  lemma GenericIsCanonical(u: Unicode, m: string, state: KeyState)
    requires m in GENERIC
    ensures MapModifier(m) in ORDER && (IsModifierPressed(u, m, state) <==> IsModifierPressed(u, MapModifier(m), state))
  {
    if m == "win" || m == "meta" || m == "rightalt" {
      SynonymIsCanonical(u, m, state);
    } else {
      OrderIsCanonical(m);
    }
  }

  lemma SynonymMeans(u: Unicode, m: string, state: KeyState)
    requires m == "rightalt" || m == "win" || m == "meta"
    ensures IsModifierPressed(u, MapModifier(m), state) ==
            if m == "rightalt" then Down(state, "rightalt") else Down(state, "leftmeta") || Down(state, "rightmeta")
  {
    MapModifierTable(m);
    PressedInOrder(u, state);
  }

  lemma GenericIsLower(u: Unicode, m: string)
    requires m in GENERIC
    ensures Lower(u, m) == m
  {
    assert forall c :: c in m ==> Plain(c);
    forall i | 0 <= i < |m| ensures Plain(m[i]) {
      assert m[i] in m;
    }
  }

  lemma SynonymPressed(u: Unicode, m: string, state: KeyState)
    requires m == "rightalt" || m == "win" || m == "meta"
    ensures IsModifierPressed(u, m, state) ==
            if m == "rightalt" then Down(state, "rightalt") else Down(state, "leftmeta") || Down(state, "rightmeta")
  {
    GenericIsLower(u, m);
    assert m != "ctrl" && m != "alt" && m != "shift";
    if m == "rightalt" {
      SidedModifierPressed(u, m, state);
    }
  }

  /** Everything is down but one key. */
  function AllBut(keys: set<string>, k: string): KeyState {
    map key | key in keys :: key != k
  }

  /** Any other name needs the one key that it names, which no canonical name needs. */
  lemma OtherNameNeedsItsKey(u: Unicode, m: string)
    requires Lower(u, m) == m && m !in GENERIC
    ensures !IsModifierPressed(u, m, AllBut(SIDED_MODIFIERS, m))
  {
    assert Lower(u, Lower(u, m)) == m;
    assert ConvertModifierToEvdev(u, m) == m;
  }

  lemma OrderNeedsNoOther(u: Unicode, m: string, o: string)
    requires m !in GENERIC && o in ORDER
    ensures IsModifierPressed(u, o, AllBut(SIDED_MODIFIERS, m))
  {
    var state := AllBut(SIDED_MODIFIERS, m);
    PressedInOrder(u, state);
    assert forall k :: k in SIDED_MODIFIERS && k != m ==> Down(state, k);
  }

  /** Each modifier that has a canonical name is kept under it. */
  lemma ModifiersKept(u: Unicode, s: string, m: string)
    requires Trim(u, Parsed(u, s).key) != ""
    requires m in Parsed(u, s).modifiers && m != "" && MapModifier(m) in ORDER
    ensures MapModifier(m) in Parsed(u, Normalized(u, s)).modifiers
  {
    CleanedWithKey(u, s);
    NormalFormParses(u, s);
    MappedIsKept(Cleaned(u, s), m);
  }

  lemma MappedIsKept(cleaned: seq<string>, m: string)
    requires cleaned != [] && m in cleaned[..|cleaned| - 1] && MapModifier(m) in ORDER
    ensures MapModifier(m) in KeptModifiers(cleaned)
  {
    var mods := cleaned[..|cleaned| - 1];
    var i :| 0 <= i < |mods| && mods[i] == m;
    assert MapModifiers(mods)[i] == MapModifier(m);
  }

  lemma GivenIsLower(u: Unicode, s: string, m: string)
    requires m in Parsed(u, s).modifiers
    ensures Lower(u, m) == m
  {
    var parts := Parts(u, s);
    assert forall p :: p in LowerAll(u, parts) ==> Lower(u, p) == p;
  }

  /** A modifier without a generic name makes a difference in some state. */
  lemma OtherNameMatters(u: Unicode, s: string, m: string)
    requires m in Parsed(u, s).modifiers && m !in GENERIC
    ensures !AllModifiersPressed(u, Parsed(u, s).modifiers, AllBut(SIDED_MODIFIERS, m))
    ensures AllModifiersPressed(u, Parsed(u, Normalized(u, s)).modifiers, AllBut(SIDED_MODIFIERS, m))
  {
    GivenIsLower(u, s, m);
    OtherNameNeedsItsKey(u, m);
    forall o | o in Parsed(u, Normalized(u, s)).modifiers ensures IsModifierPressed(u, o, AllBut(SIDED_MODIFIERS, m)) {
      var _ := NormalFormModifiersAreMapped(u, s, o);
      OrderNeedsNoOther(u, m, o);
    }
  }

  lemma KeptMeansGiven(u: Unicode, s: string, m: string, state: KeyState)
    requires Trim(u, Parsed(u, s).key) != ""
    requires m in Parsed(u, s).modifiers && m in GENERIC
    requires AllModifiersPressed(u, Parsed(u, Normalized(u, s)).modifiers, state)
    ensures IsModifierPressed(u, m, state)
  {
    GenericIsCanonical(u, m, state);
    GenericIsNotEmpty(m);
    ModifiersKept(u, s, m);
  }

  lemma GenericIsNotEmpty(m: string)
    requires m in GENERIC
    ensures m != ""
  {
  }

  lemma GenericNamesKeepMeaning(u: Unicode, s: string, state: KeyState)
    requires Trim(u, Parsed(u, s).key) != ""
    requires forall m :: m in Parsed(u, s).modifiers ==> m in GENERIC
    ensures AllModifiersPressed(u, Parsed(u, s).modifiers, state) <==> AllModifiersPressed(u, Parsed(u, Normalized(u, s)).modifiers, state)
  {
    if AllModifiersPressed(u, Parsed(u, s).modifiers, state) {
      NormalizeWeakens(u, s, state);
    }
    if AllModifiersPressed(u, Parsed(u, Normalized(u, s)).modifiers, state) {
      forall m | m in Parsed(u, s).modifiers ensures IsModifierPressed(u, m, state) {
        KeptMeansGiven(u, s, m, state);
      }
    }
  }

  /** Normalising leaves the meaning of a string with a key unchanged, in every modifier state, exactly when all its
      modifiers have generic names. A sided name such as "leftctrl" loses its side, and an unknown one is dropped. */
  lemma NormalizeKeepsMeaningIff(u: Unicode, s: string)
    requires Trim(u, Parsed(u, s).key) != ""
    ensures (forall state ::
               AllModifiersPressed(u, Parsed(u, s).modifiers, state) <==> AllModifiersPressed(u, Parsed(u, Normalized(u, s)).modifiers, state))
            <==> forall m :: m in Parsed(u, s).modifiers ==> m in GENERIC
  {
    if m :| m in Parsed(u, s).modifiers && m !in GENERIC {
      OtherNameMatters(u, s, m);
    } else {
      forall state
        ensures AllModifiersPressed(u, Parsed(u, s).modifiers, state)
                <==> AllModifiersPressed(u, Parsed(u, Normalized(u, s)).modifiers, state)
      {
        GenericNamesKeepMeaning(u, s, state);
      }
    }
  }
}
