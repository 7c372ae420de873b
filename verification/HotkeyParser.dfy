/** The hotkey language of hotkeys/utils/parser.go: strings such as "ctrl+shift+a". */
module HotkeyParser {
  import opened Text

  datatype KeyCombination = KeyCombination(modifiers: seq<string>, key: string)

  datatype Validity = Valid | EmptyHotkey | MissingKey | KeyIsModifier

  const ORDER: seq<string> := ["ctrl", "shift", "alt", "altgr", "super"]

  const MODIFIERS: set<string> := {
    "ctrl", "alt", "shift", "super", "meta", "win", "leftmeta", "rightmeta", "altgr", "hyper",
    "leftctrl", "rightctrl", "leftalt", "rightalt", "leftshift", "rightshift"
  }

  // ----- Specification functions

  /** The '+'-separated parts of a hotkey string without surrounding white space. */
  function Parts(u: Unicode, s: string): (parts: seq<string>)
    ensures |parts| > 0
  {
    TrimAll(u, Split(s, '+'))
  }

  /** What a hotkey string means: the last part is the key, the parts before it are modifiers. */
  function Parsed(u: Unicode, s: string): KeyCombination {
    var parts := Parts(u, s);
    KeyCombination(LowerAll(u, parts[..|parts| - 1]), parts[|parts| - 1])
  }

  function NonEmpty(parts: seq<string>): seq<string> {
    if parts == [] then []
    else if parts[0] != "" then [parts[0]] + NonEmpty(parts[1..])
    else NonEmpty(parts[1..])
  }

  // The closure mapMod of NormalizeHotkey
  function MapModifier(m: string): string {
    if m == "win" || m == "meta" || m == "leftmeta" || m == "rightmeta" then "super"
    else if m == "rightalt" || m == "altgr" then "altgr"
    else if m == "leftalt" then "alt"
    else if m == "leftctrl" || m == "rightctrl" then "ctrl"
    else if m == "leftshift" || m == "rightshift" then "shift"
    else m
  }

  function MapModifiers(mods: seq<string>): (r: seq<string>)
    ensures |r| == |mods|
    ensures forall i :: 0 <= i < |mods| ==> r[i] == MapModifier(mods[i])
  {
    seq(|mods|, i requires 0 <= i < |mods| => MapModifier(mods[i]))
  }

  /** The elements of `order` that are also in `chosen`, in the order of `order`. */
  function Pick(order: seq<string>, chosen: set<string>): (r: seq<string>)
    ensures forall m :: m in r <==> m in order && m in chosen
  {
    if order == [] then []
    else (if order[0] in chosen then [order[0]] else []) + Pick(order[1..], chosen)
  }

  function Elements(xs: seq<string>): set<string> {
    set x | x in xs
  }

  /** The canonical string of a list of cleaned, lower-case parts. */
  function Canonical(cleaned: seq<string>): string {
    if cleaned == [] then ""
    else
      var n := |cleaned| - 1;
      Join(Pick(ORDER, Elements(MapModifiers(cleaned[..n]))) + [cleaned[n]], '+')
  }

  function Cleaned(u: Unicode, s: string): seq<string> {
    NonEmpty(Parts(u, Lower(u, Trim(u, s))))
  }

  function Normalized(u: Unicode, s: string): string {
    Canonical(Cleaned(u, s))
  }

  // ----- Lookups

  predicate IsModifier(u: Unicode, keyName: string) {
    Lower(u, keyName) in MODIFIERS
  }

  function ConvertModifierToEvdev(u: Unicode, modifier: string): string {
    var m := Lower(u, modifier);
    if m == "ctrl" then "leftctrl"
    else if m == "alt" then "leftalt"
    else if m == "shift" then "leftshift"
    else if m == "super" || m == "meta" || m == "win" then "leftmeta"
    else if m == "altgr" then "rightalt"
    else m
  }

  // ----- The program's loops

  method ParseHotkey(u: Unicode, hotkeyStr: string) returns (combo: KeyCombination)
    ensures combo == Parsed(u, hotkeyStr)
  {
    var parts := Split(hotkeyStr, '+');
    if |parts| == 1 {
      return KeyCombination([], Trim(u, parts[0]));
    }
    var modifiers: seq<string> := [];
    for i := 0 to |parts| - 1
      invariant modifiers == LowerAll(u, Parts(u, hotkeyStr)[..i])
    {
      modifiers := modifiers + [Lower(u, Trim(u, parts[i]))];
    }
    combo := KeyCombination(modifiers, Trim(u, parts[|parts| - 1]));
  }

  method NormalizeHotkey(u: Unicode, hotkeyStr: string) returns (r: string)
    ensures r == Normalized(u, hotkeyStr)
  {
    var s := Lower(u, Trim(u, hotkeyStr));
    if s == "" {
      NormalizedEmpty(u, hotkeyStr);
      return "";
    }
    var cleaned := CleanParts(u, Split(s, '+'));
    if |cleaned| == 0 {
      return "";
    }
    var key := cleaned[|cleaned| - 1];
    var seen := SeenModifiers(cleaned[..|cleaned| - 1]);
    var ordered := OrderModifiers(ORDER, seen);
    ghost var chosen := Elements(MapModifiers(cleaned[..|cleaned| - 1]));
    assert seen.Keys == chosen;
    if |ordered| == 0 {
      assert ordered + [key] == [key];
      return key;
    }
    JoinLast(ordered, key);
    return Join(ordered, '+') + "+" + key;
  }

  method CleanParts(u: Unicode, parts: seq<string>) returns (cleaned: seq<string>)
    ensures cleaned == NonEmpty(TrimAll(u, parts))
  {
    ghost var all := TrimAll(u, parts);
    cleaned := [];
    for i := 0 to |parts|
      invariant cleaned + NonEmpty(all[i..]) == NonEmpty(all)
    {
      var p := Trim(u, parts[i]);
      assert all[i..][0] == p && all[i..][1..] == all[i + 1..];
      if p != "" {
        assert cleaned + ([p] + NonEmpty(all[i + 1..])) == cleaned + [p] + NonEmpty(all[i + 1..]);
        cleaned := cleaned + [p];
      }
    }
  }

  method SeenModifiers(given: seq<string>) returns (seen: map<string, bool>)
    ensures seen.Keys == Elements(MapModifiers(given))
    ensures forall m :: m in seen ==> seen[m]
  {
    var mods := given;
    ghost var mapped := MapModifiers(given);
    seen := map[];
    for i := 0 to |mods|
      invariant |mods| == |given|
      invariant forall j :: 0 <= j < i ==> mods[j] == mapped[j]
      invariant forall j :: i <= j < |given| ==> mods[j] == given[j]
      invariant forall j :: 0 <= j < i ==> mapped[j] in seen
      invariant forall m :: m in seen ==> seen[m] && m in mapped
    {
      var m := MapModifier(mods[i]);
      assert m == mapped[i];
      mods := mods[i := m];
      if m !in seen || !seen[m] {
        seen := seen[m := true];
      }
    }
  }

  method OrderModifiers(order: seq<string>, seen: map<string, bool>) returns (ordered: seq<string>)
    requires forall m :: m in seen ==> seen[m]
    ensures ordered == Pick(order, seen.Keys)
  {
    ordered := [];
    for i := 0 to |order|
      invariant ordered + Pick(order[i..], seen.Keys) == Pick(order, seen.Keys)
    {
      assert order[i..][0] == order[i] && order[i..][1..] == order[i + 1..];
      if order[i] in seen && seen[order[i]] {
        assert ordered + ([order[i]] + Pick(order[i + 1..], seen.Keys)) == ordered + [order[i]] + Pick(order[i + 1..], seen.Keys);
        ordered := ordered + [order[i]];
      } else {
        assert [] + Pick(order[i + 1..], seen.Keys) == Pick(order[i + 1..], seen.Keys);
      }
    }
  }

  method ValidateHotkey(u: Unicode, hotkeyStr: string) returns (v: Validity)
    ensures v == Validated(u, hotkeyStr)
  {
    var s := NormalizeHotkey(u, hotkeyStr);
    ValidationTests(u, hotkeyStr);
    if Trim(u, s) == "" {
      return EmptyHotkey;
    }
    var combo := ParseHotkey(u, s);
    if Trim(u, combo.key) == "" {
      return MissingKey;
    }
    if IsModifier(u, combo.key) {
      return KeyIsModifier;
    }
    return Valid;
  }

  /** What is wrong with a hotkey string: it has no part that is not blank, or the last such part is a modifier. */
  function Validated(u: Unicode, s: string): Validity {
    var cleaned := Cleaned(u, s);
    if cleaned == [] then EmptyHotkey
    else if IsModifier(u, cleaned[|cleaned| - 1]) then KeyIsModifier
    else Valid
  }

  lemma NormalizedEmpty(u: Unicode, s: string)
    requires Trim(u, s) == ""
    ensures Normalized(u, s) == ""
  {
    assert Lower(u, "") == "" && Split("", '+') == [""];
    assert Parts(u, "") == [""] && NonEmpty([""]) == [];
  }

  lemma {:induction false} JoinLast(parts: seq<string>, last: string)
    requires |parts| > 0
    ensures Join(parts + [last], '+') == Join(parts, '+') + "+" + last
  {
    if |parts| > 1 {
      JoinLast(parts[1..], last);
      assert (parts + [last])[1..] == parts[1..] + [last];
    }
  }

  // ----- Picking modifiers in order

  predicate Distinct(xs: seq<string>) {
    forall i, j :: 0 <= i < j < |xs| ==> xs[i] != xs[j]
  }

  /** `xs` is obtained from `ys` by leaving elements out. */
  predicate Subsequence(xs: seq<string>, ys: seq<string>) {
    if xs == [] then true
    else if ys == [] then false
    else if xs[0] == ys[0] then Subsequence(xs[1..], ys[1..])
    else Subsequence(xs, ys[1..])
  }

  lemma {:induction false} PickIsSubsequence(order: seq<string>, chosen: set<string>)
    requires Distinct(order)
    ensures Subsequence(Pick(order, chosen), order)
    ensures Distinct(Pick(order, chosen))
  {
    if order != [] {
      var rest := Pick(order[1..], chosen);
      PickIsSubsequence(order[1..], chosen);
      if order[0] in chosen {
        assert Pick(order, chosen)[1..] == rest;
      } else {
        assert Pick(order, chosen) == rest;
        if rest != [] {
          assert rest[0] in rest && rest[0] in order[1..];
        }
      }
    }
  }

  lemma {:induction false} PickDependsOnOrder(order: seq<string>, a: set<string>, b: set<string>)
    requires forall m :: m in order ==> (m in a <==> m in b)
    ensures Pick(order, a) == Pick(order, b)
  {
    if order != [] {
      PickDependsOnOrder(order[1..], a, b);
    }
  }

  lemma PickAgain(order: seq<string>, chosen: set<string>)
    ensures Pick(order, Elements(Pick(order, chosen))) == Pick(order, chosen)
  {
    PickDependsOnOrder(order, Elements(Pick(order, chosen)), chosen);
  }

  // ----- Canonical strings

  /** A part that survives cleaning unchanged. */
  predicate CleanPart(u: Unicode, p: string) {
    p != "" && Trimmed(u, p) && '+' !in p && Lower(u, p) == p
  }

  lemma OrderIsClean(u: Unicode)
    ensures forall m :: m in ORDER ==> CleanPart(u, m) && MapModifier(m) == m
    ensures Distinct(ORDER)
  {
    forall m | m in ORDER ensures CleanPart(u, m) {
      assert forall c :: c in m ==> Plain(c);
    }
  }

  lemma {:induction false} NonEmptyIsFilter(parts: seq<string>)
    ensures forall p :: p in NonEmpty(parts) <==> p in parts && p != ""
    ensures (forall p :: p in parts ==> p != "") ==> NonEmpty(parts) == parts
  {
    if parts != [] {
      NonEmptyIsFilter(parts[1..]);
      assert forall p :: p in parts[1..] ==> p in parts;
      assert parts[0] in parts && parts == [parts[0]] + parts[1..];
    }
  }

  lemma {:induction false} NonEmptySnoc(parts: seq<string>, p: string)
    ensures NonEmpty(parts + [p]) == NonEmpty(parts) + if p != "" then [p] else []
  {
    if parts == [] {
      assert parts + [p] == [p];
    } else {
      assert (parts + [p])[1..] == parts[1..] + [p];
      NonEmptySnoc(parts[1..], p);
    }
  }

  lemma TrimmedPartIsClean(u: Unicode, raw: string)
    requires '+' !in raw
    ensures var p := Lower(u, Trim(u, raw)); p == "" || CleanPart(u, p)
  {
    TrimIsTrimmed(u, raw);
    var p := Lower(u, Trim(u, raw));
    assert forall c :: c in Trim(u, raw) ==> c != '+';
    assert Lower(u, p) == p;
  }

  lemma CleanedIsClean(u: Unicode, s: string)
    ensures Cleaned(u, s) == NonEmpty(LowerAll(u, Parts(u, s)))
    ensures forall p :: p in Cleaned(u, s) ==> CleanPart(u, p)
  {
    PartsOfTrimmedLower(u, s);
    var lowered, raw := LowerAll(u, Parts(u, s)), Split(s, '+');
    NonEmptyIsFilter(lowered);
    SplitPartsHaveNoSeparator(s, '+');
    forall p | p in lowered && p != "" ensures CleanPart(u, p) {
      var i :| 0 <= i < |lowered| && lowered[i] == p;
      assert raw[i] in raw;
      TrimmedPartIsClean(u, raw[i]);
    }
  }

  /** The parts of a joined list of clean parts are that list. */
  lemma PartsOfJoin(u: Unicode, parts: seq<string>)
    requires |parts| > 0
    requires forall p :: p in parts ==> CleanPart(u, p)
    ensures Parts(u, Join(parts, '+')) == parts
    ensures Cleaned(u, Join(parts, '+')) == parts
  {
    SplitJoin(parts, '+');
    forall i | 0 <= i < |parts| ensures Trim(u, parts[i]) == parts[i] && Lower(u, parts[i]) == parts[i] {
      assert parts[i] in parts;
      TrimIsTrimmed(u, parts[i]);
    }
    assert TrimAll(u, parts) == parts && LowerAll(u, parts) == parts;
    CleanedIsClean(u, Join(parts, '+'));
    NonEmptyIsFilter(parts);
  }

  /** Modifiers and key joined by '+' parse to themselves when all of them are clean. */
  lemma JoinedHotkeyParses(u: Unicode, mods: seq<string>, key: string)
    requires forall m :: m in mods ==> CleanPart(u, m)
    requires CleanPart(u, key)
    ensures Parsed(u, Join(mods + [key], '+')) == KeyCombination(mods, key)
    ensures Cleaned(u, Join(mods + [key], '+')) == mods + [key]
  {
    var parts := mods + [key];
    PartsOfJoin(u, parts);
    assert parts[..|parts| - 1] == mods;
    forall i | 0 <= i < |mods| ensures Lower(u, mods[i]) == mods[i] {
      assert mods[i] in mods;
    }
    assert LowerAll(u, mods) == mods;
  }

  /** Any choice from ORDER is clean, canonical and fixed by picking again. */
  lemma PickedModifiers(u: Unicode, chosen: set<string>)
    ensures var mods := Pick(ORDER, chosen);
            && (forall m :: m in mods ==> CleanPart(u, m))
            && MapModifiers(mods) == mods
            && Pick(ORDER, Elements(MapModifiers(mods))) == mods
            && Subsequence(mods, ORDER) && Distinct(mods)
  {
    var mods := Pick(ORDER, chosen);
    OrderIsClean(u);
    forall i | 0 <= i < |mods| ensures MapModifier(mods[i]) == mods[i] {
      assert mods[i] in mods && mods[i] in ORDER;
    }
    assert MapModifiers(mods) == mods;
    PickAgain(ORDER, chosen);
    PickIsSubsequence(ORDER, chosen);
  }

  /** The modifiers that a normal form keeps. */
  function KeptModifiers(cleaned: seq<string>): seq<string>
    requires cleaned != []
  {
    Pick(ORDER, Elements(MapModifiers(cleaned[..|cleaned| - 1])))
  }

  // ----- Main results

  /** What a normal form consists of: parsing it gives back the kept modifiers and the last part. */
  lemma NormalFormParses(u: Unicode, s: string)
    requires Cleaned(u, s) != []
    ensures var cleaned, n := Cleaned(u, s), Normalized(u, s);
            var mods, key := KeptModifiers(cleaned), cleaned[|cleaned| - 1];
            && CleanPart(u, key)
            && Parsed(u, n) == KeyCombination(mods, key)
            && Cleaned(u, n) == mods + [key]
  {
    var cleaned := Cleaned(u, s);
    CleanedIsClean(u, s);
    assert cleaned[|cleaned| - 1] in cleaned;
    PickedModifiers(u, Elements(MapModifiers(cleaned[..|cleaned| - 1])));
    JoinedHotkeyParses(u, KeptModifiers(cleaned), cleaned[|cleaned| - 1]);
  }

  lemma EmptyParses(u: Unicode)
    ensures Parsed(u, "") == KeyCombination([], "")
    ensures Normalized(u, "") == ""
  {
    assert Parts(u, "") == [""];
    NormalizedEmpty(u, "");
  }

  /** The modifiers of a normal form are a duplicate-free subsequence of ORDER. */
  lemma NormalFormModifiersAreOrdered(u: Unicode, s: string)
    ensures var mods := Parsed(u, Normalized(u, s)).modifiers;
            Subsequence(mods, ORDER) && Distinct(mods)
  {
    var cleaned := Cleaned(u, s);
    if cleaned == [] {
      EmptyParses(u);
    } else {
      NormalFormParses(u, s);
      PickedModifiers(u, Elements(MapModifiers(cleaned[..|cleaned| - 1])));
    }
  }

  /** Normalising a second time changes nothing, on every string. */
  lemma NormalizeIdempotent(u: Unicode, s: string)
    ensures Normalized(u, Normalized(u, s)) == Normalized(u, s)
  {
    var cleaned := Cleaned(u, s);
    if cleaned == [] {
      EmptyParses(u);
    } else {
      NormalFormParses(u, s);
      var mods, key := KeptModifiers(cleaned), cleaned[|cleaned| - 1];
      assert (mods + [key])[..|mods|] == mods;
      PickedModifiers(u, Elements(MapModifiers(cleaned[..|cleaned| - 1])));
    }
  }

  /** What the tests of ValidateHotkey come to. The second one never fails where the first one passes: the error of a
      missing key is never returned. */
  lemma ValidationTests(u: Unicode, s: string)
    ensures var cleaned, n := Cleaned(u, s), Normalized(u, s);
            && (Trim(u, n) == "" <==> cleaned == [])
            && (Trim(u, Parsed(u, n).key) == "" <==> cleaned == [])
            && (cleaned != [] ==> Parsed(u, n).key == cleaned[|cleaned| - 1])
  {
    EmptyParses(u);
    if Cleaned(u, s) != [] {
      NormalFormParses(u, s);
      NormalizeIdempotent(u, s);
      TrimIsTrimmed(u, Parsed(u, Normalized(u, s)).key);
      if Trim(u, Normalized(u, s)) == "" {
        NormalizedEmpty(u, Normalized(u, s));
      }
    }
  }

  lemma NormalFormIsValid(u: Unicode, n: string)
    requires Normalized(u, n) == n
    requires var key := Parsed(u, n).key; Trim(u, key) != "" && !IsModifier(u, key)
    ensures Validated(u, n) == Valid && n != ""
  {
    ValidationTests(u, n);
    EmptyParses(u);
  }

  /** Every modifier of the normal form is the canonical name of a modifier of the original. */
  lemma NormalFormModifiersAreMapped(u: Unicode, s: string, m: string) returns (o: string)
    requires m in Parsed(u, Normalized(u, s)).modifiers
    ensures m in ORDER
    ensures o in Parsed(u, s).modifiers && MapModifier(o) == m
  {
    var cleaned := Cleaned(u, s);
    if cleaned == [] {
      EmptyParses(u);
      assert false;
    } else {
      NormalFormParses(u, s);
      var mods := cleaned[..|cleaned| - 1];
      assert m in Elements(MapModifiers(mods));
      var i :| 0 <= i < |mods| && MapModifiers(mods)[i] == m;
      o := mods[i];
      CleanedAllButLast(u, s);
    }
  }

  lemma CleanedAllButLast(u: Unicode, s: string)
    requires Cleaned(u, s) != []
    ensures var cleaned := Cleaned(u, s);
            forall i :: 0 <= i < |cleaned| - 1 ==> cleaned[i] in Parsed(u, s).modifiers
  {
    CleanedIsClean(u, s);
    var lowered := LowerAll(u, Parts(u, s));
    var init := lowered[..|lowered| - 1];
    assert init == Parsed(u, s).modifiers;
    AllButLastOfNonEmpty(lowered);
  }

  lemma AllButLastOfNonEmpty(parts: seq<string>)
    requires parts != []
    ensures forall i :: 0 <= i < |NonEmpty(parts)| - 1 ==> NonEmpty(parts)[i] in parts[..|parts| - 1]
  {
    var init := parts[..|parts| - 1];
    assert parts == init + [parts[|parts| - 1]];
    NonEmptySnoc(init, parts[|parts| - 1]);
    NonEmptyIsFilter(init);
    forall i | 0 <= i < |NonEmpty(parts)| - 1 ensures NonEmpty(parts)[i] in init {
      assert NonEmpty(parts)[i] == NonEmpty(init)[i];
    }
  }

  /** Where the key is not blank, cleaning keeps it, lower-case, as the last part, after the modifiers that are not blank. */
  lemma CleanedWithKey(u: Unicode, s: string)
    requires Trim(u, Parsed(u, s).key) != ""
    ensures var cleaned := Cleaned(u, s);
            && cleaned != [] && cleaned[|cleaned| - 1] == Lower(u, Parsed(u, s).key)
            && forall m :: m in cleaned[..|cleaned| - 1] <==> m in Parsed(u, s).modifiers && m != ""
  {
    CleanedIsClean(u, s);
    var lowered := LowerAll(u, Parts(u, s));
    assert lowered[..|lowered| - 1] == Parsed(u, s).modifiers;
    assert Parsed(u, s).key != "" && |lowered[|lowered| - 1]| == |Parsed(u, s).key|;
    LastOfNonEmpty(lowered);
    NonEmptyIsFilter(lowered[..|lowered| - 1]);
  }

  lemma LastOfNonEmpty(parts: seq<string>)
    requires parts != [] && parts[|parts| - 1] != ""
    ensures var kept := NonEmpty(parts);
            && kept != [] && kept[|kept| - 1] == parts[|parts| - 1]
            && kept[..|kept| - 1] == NonEmpty(parts[..|parts| - 1])
  {
    var init, last := parts[..|parts| - 1], parts[|parts| - 1];
    assert parts == init + [last];
    NonEmptySnoc(init, last);
    assert NonEmpty(parts)[..|NonEmpty(parts)| - 1] == NonEmpty(init);
  }

  /** Normalising keeps the key, lower-case. */
  lemma NormalFormKeepsKey(u: Unicode, s: string)
    requires Trim(u, Parsed(u, s).key) != ""
    ensures Parsed(u, Normalized(u, s)).key == Lower(u, Parsed(u, s).key)
  {
    CleanedWithKey(u, s);
    NormalFormParses(u, s);
  }

  /** A string built from canonical modifiers and a clean key means exactly these. */
  lemma BuiltHotkeyParses(u: Unicode, chosen: set<string>, key: string)
    requires CleanPart(u, key)
    ensures var mods := Pick(ORDER, chosen);
            Parsed(u, Normalized(u, Join(mods + [key], '+'))) == KeyCombination(mods, key)
  {
    var mods := Pick(ORDER, chosen);
    PickedModifiers(u, chosen);
    JoinedHotkeyParses(u, mods, key);
    NormalFormParses(u, Join(mods + [key], '+'));
    assert (mods + [key])[..|mods|] == mods;
  }
}
