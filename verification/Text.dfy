/** The character classes and string operations of Go's `unicode` and `strings` packages that the
    hotkey language and the transcript sanitizer are built on. A string is a sequence of characters. */
module Text {

  /** `lower` is unicode.ToLower, `fold` picks one representative of each simple case-folding class,
      `space` is unicode.IsSpace and `letter` is the class \p{L} closed under simple case folding. */
  datatype CharClasses = CharClasses(lower: char -> char, fold: char -> char, space: char -> bool, letter: char -> bool)

  predicate Plain(c: char) {
    'a' <= c <= 'z' || '0' <= c <= '9'
  }

  /** The facts about Unicode that the program depends on, and no others. */
  ghost predicate Faithful(t: CharClasses) {
    && (forall c :: t.lower(t.lower(c)) == t.lower(c))
    && (forall c :: t.space(t.lower(c)) <==> t.space(c))
    && (forall c :: t.lower(c) == '+' <==> c == '+')
    && (forall c | Plain(c) || c == '_' :: t.lower(c) == c)
    && (forall c | Plain(c) || c == '_' :: t.fold(c) == c)
    && (forall c | t.space(c) :: !Plain(c) && !t.letter(c) && c != '+' && c != '_' && c != '-' && c != '[' && c != ']')
    && t.space(' ')
    && !t.letter('[') && !t.letter(']')
  }

  type Unicode = t: CharClasses | Faithful(t) ghost witness ASCII

  /** The ASCII fragment satisfies the facts, so they are consistent. */
  const ASCII := CharClasses(AsciiLower, AsciiLower, AsciiSpace, AsciiLetter)

  function AsciiLower(c: char): char {
    if 'A' <= c <= 'Z' then (c as int + 32) as char else c
  }

  predicate AsciiSpace(c: char) {
    c == ' ' || c == '\t' || c == '\n' || c == '\r'
  }

  predicate AsciiLetter(c: char) {
    'a' <= c <= 'z' || 'A' <= c <= 'Z'
  }

  // strings.ToLower
  function Lower(u: Unicode, s: string): (r: string)
    ensures |r| == |s|
    ensures forall i :: 0 <= i < |s| ==> r[i] == u.lower(s[i])
  {
    seq(|s|, i requires 0 <= i < |s| => u.lower(s[i]))
  }

  // strings.EqualFold
  predicate EqualFold(u: Unicode, a: string, b: string) {
    |a| == |b| && forall i :: 0 <= i < |a| ==> u.fold(a[i]) == u.fold(b[i])
  }

  function TrimLeft(u: Unicode, s: string): string {
    if s != "" && u.space(s[0]) then TrimLeft(u, s[1..]) else s
  }

  function TrimRight(u: Unicode, s: string): string {
    if s != "" && u.space(s[|s| - 1]) then TrimRight(u, s[..|s| - 1]) else s
  }

  // strings.TrimSpace
  function Trim(u: Unicode, s: string): string {
    TrimRight(u, TrimLeft(u, s))
  }

  predicate Trimmed(u: Unicode, s: string) {
    s == "" || (!u.space(s[0]) && !u.space(s[|s| - 1]))
  }

  // strings.Join(parts, sep) for a one-character separator
  function Join(parts: seq<string>, sep: char): string {
    if |parts| == 0 then ""
    else if |parts| == 1 then parts[0]
    else parts[0] + [sep] + Join(parts[1..], sep)
  }

  // strings.Split(s, sep) for a one-character separator
  function Split(s: string, sep: char): (parts: seq<string>)
    ensures |parts| > 0
  {
    if s == "" then [""]
    else
      var rest := Split(s[1..], sep);
      if s[0] == sep then [""] + rest else [[s[0]] + rest[0]] + rest[1..]
  }

  function TrimAll(u: Unicode, parts: seq<string>): (r: seq<string>)
    ensures |r| == |parts|
    ensures forall i :: 0 <= i < |parts| ==> r[i] == Trim(u, parts[i])
  {
    seq(|parts|, i requires 0 <= i < |parts| => Trim(u, parts[i]))
  }

  function LowerAll(u: Unicode, parts: seq<string>): (r: seq<string>)
    ensures |r| == |parts|
    ensures forall i :: 0 <= i < |parts| ==> r[i] == Lower(u, parts[i])
  {
    seq(|parts|, i requires 0 <= i < |parts| => Lower(u, parts[i]))
  }

  // ----- Trimming

  lemma {:induction false} TrimLeftIsSuffix(u: Unicode, s: string)
    ensures TrimLeft(u, s) == "" || !u.space(TrimLeft(u, s)[0])
    ensures forall c :: c in TrimLeft(u, s) ==> c in s
    ensures s != "" && !u.space(s[|s| - 1]) ==>
              TrimLeft(u, s) != "" && TrimLeft(u, s)[|TrimLeft(u, s)| - 1] == s[|s| - 1]
  {
    if s != "" && u.space(s[0]) {
      TrimLeftIsSuffix(u, s[1..]);
    }
  }

  lemma {:induction false} TrimRightIsPrefix(u: Unicode, s: string)
    ensures TrimRight(u, s) == "" || !u.space(TrimRight(u, s)[|TrimRight(u, s)| - 1])
    ensures TrimRight(u, s) <= s
  {
    if s != "" && u.space(s[|s| - 1]) {
      TrimRightIsPrefix(u, s[..|s| - 1]);
    }
  }

  lemma TrimIsTrimmed(u: Unicode, s: string)
    ensures Trimmed(u, Trim(u, s))
    ensures Trimmed(u, s) ==> Trim(u, s) == s
    ensures forall c :: c in Trim(u, s) ==> c in s
  {
    TrimLeftIsSuffix(u, s);
    TrimRightIsPrefix(u, TrimLeft(u, s));
  }

  lemma {:induction false} TrimLower(u: Unicode, s: string)
    ensures Trim(u, Lower(u, s)) == Lower(u, Trim(u, s))
  {
    TrimLeftLower(u, s);
    TrimRightLower(u, TrimLeft(u, s));
  }

  lemma {:induction false} TrimLeftLower(u: Unicode, s: string)
    ensures TrimLeft(u, Lower(u, s)) == Lower(u, TrimLeft(u, s))
  {
    if s != "" && u.space(s[0]) {
      assert Lower(u, s)[1..] == Lower(u, s[1..]);
      TrimLeftLower(u, s[1..]);
    }
  }

  lemma {:induction false} TrimRightLower(u: Unicode, s: string)
    ensures TrimRight(u, Lower(u, s)) == Lower(u, TrimRight(u, s))
  {
    if s != "" && u.space(s[|s| - 1]) {
      assert Lower(u, s)[..|s| - 1] == Lower(u, s[..|s| - 1]);
      TrimRightLower(u, s[..|s| - 1]);
    }
  }

  lemma {:induction false} TrimDropsTrailing(u: Unicode, s: string, c: char)
    requires u.space(c)
    ensures Trim(u, s + [c]) == Trim(u, s)
  {
    if s == "" {
      assert s + [c] == [c] && [c][1..] == "";
    } else if u.space(s[0]) {
      assert (s + [c])[1..] == s[1..] + [c];
      TrimDropsTrailing(u, s[1..], c);
    } else {
      assert (s + [c])[..|s|] == s;
    }
  }

  lemma TrimDropsLeading(u: Unicode, s: string, c: char)
    requires u.space(c)
    ensures Trim(u, [c] + s) == Trim(u, s)
  {
    assert ([c] + s)[1..] == s;
  }

  // ----- Splitting

  lemma {:induction false} SplitPartsHaveNoSeparator(s: string, sep: char)
    ensures forall p :: p in Split(s, sep) ==> sep !in p
  {
    if s != "" {
      SplitPartsHaveNoSeparator(s[1..], sep);
      var rest := Split(s[1..], sep);
      assert rest[0] in rest;
    }
  }

  lemma {:induction false} SplitPart(p: string, sep: char)
    requires sep !in p
    ensures Split(p, sep) == [p]
  {
    if p != "" {
      SplitPart(p[1..], sep);
      assert [p[0]] + p[1..] == p;
    }
  }

  lemma {:induction false} SplitAfterPart(p: string, rest: string, sep: char)
    requires sep !in p
    ensures Split(p + [sep] + rest, sep) == [p] + Split(rest, sep)
  {
    var s := p + [sep] + rest;
    if p == "" {
      assert s[1..] == rest;
    } else {
      assert s[1..] == p[1..] + [sep] + rest;
      SplitAfterPart(p[1..], rest, sep);
      assert [p[0]] + p[1..] == p;
    }
  }

  /** Splitting undoes joining, as long as no part holds the separator. */
  lemma {:induction false} SplitJoin(parts: seq<string>, sep: char)
    requires |parts| > 0
    requires forall p :: p in parts ==> sep !in p
    ensures Split(Join(parts, sep), sep) == parts
  {
    if |parts| == 1 {
      SplitPart(parts[0], sep);
    } else {
      SplitJoin(parts[1..], sep);
      SplitAfterPart(parts[0], Join(parts[1..], sep), sep);
    }
  }

  lemma LowerAllCons(u: Unicode, p: string, parts: seq<string>)
    ensures LowerAll(u, [p] + parts) == [Lower(u, p)] + LowerAll(u, parts)
  {
  }

  lemma {:induction false} SplitLower(u: Unicode, s: string)
    ensures Split(Lower(u, s), '+') == LowerAll(u, Split(s, '+'))
  {
    if s == "" {
      assert Lower(u, s) == "" && Lower(u, "") == "";
    } else {
      var tail, rest := s[1..], Split(s[1..], '+');
      assert Lower(u, s)[1..] == Lower(u, tail);
      SplitLower(u, tail);
      if s[0] == '+' {
        LowerAllCons(u, "", rest);
        assert Lower(u, "") == "";
      } else {
        LowerAllCons(u, [s[0]] + rest[0], rest[1..]);
        assert Lower(u, [s[0]] + rest[0]) == [u.lower(s[0])] + Lower(u, rest[0]);
        assert LowerAll(u, rest)[1..] == LowerAll(u, rest[1..]);
      }
    }
  }

  /** Appends a character to the last part. */
  function ExtendLast(parts: seq<string>, c: char): (r: seq<string>)
    requires parts != []
    ensures |r| == |parts|
  {
    parts[|parts| - 1 := parts[|parts| - 1] + [c]]
  }

  lemma {:induction false} SplitSnoc(s: string, c: char, sep: char)
    requires c != sep
    ensures Split(s + [c], sep) == ExtendLast(Split(s, sep), c)
  {
    if s == "" {
      assert s + [c] == [c];
      SplitPart([c], sep);
    } else {
      var rest := Split(s[1..], sep);
      assert (s + [c])[0] == s[0] && (s + [c])[1..] == s[1..] + [c];
      SplitSnoc(s[1..], c, sep);
      if s[0] == sep {
        assert ExtendLast([""] + rest, c) == [""] + ExtendLast(rest, c);
      } else if |rest| == 1 {
        assert [s[0]] + (rest[0] + [c]) == ([s[0]] + rest[0]) + [c];
      } else {
        assert ExtendLast([[s[0]] + rest[0]] + rest[1..], c) == [[s[0]] + rest[0]] + ExtendLast(rest, c)[1..];
      }
    }
  }

  lemma {:induction false} PartsOfTrimLeft(u: Unicode, s: string)
    ensures TrimAll(u, Split(TrimLeft(u, s), '+')) == TrimAll(u, Split(s, '+'))
  {
    if s != "" && u.space(s[0]) {
      PartsOfTrimLeft(u, s[1..]);
      TrimDropsLeading(u, Split(s[1..], '+')[0], s[0]);
    }
  }

  lemma PartsOfTrailingSpace(u: Unicode, s: string, c: char)
    requires u.space(c)
    ensures TrimAll(u, Split(s + [c], '+')) == TrimAll(u, Split(s, '+'))
  {
    SplitSnoc(s, c, '+');
    var parts := Split(s, '+');
    TrimDropsTrailing(u, parts[|parts| - 1], c);
    assert TrimAll(u, ExtendLast(parts, c)) == TrimAll(u, parts);
  }

  lemma {:induction false} PartsOfTrimRight(u: Unicode, s: string)
    ensures TrimAll(u, Split(TrimRight(u, s), '+')) == TrimAll(u, Split(s, '+'))
  {
    if s != "" && u.space(s[|s| - 1]) {
      PartsOfTrimRight(u, s[..|s| - 1]);
      PartsOfTrailingSpace(u, s[..|s| - 1], s[|s| - 1]);
      assert s == s[..|s| - 1] + [s[|s| - 1]];
    }
  }

  /** Trimming and lower-casing a whole string first changes its '+'-separated, trimmed parts
      only by lower-casing each of them. */
  lemma PartsOfTrimmedLower(u: Unicode, s: string)
    ensures TrimAll(u, Split(Lower(u, Trim(u, s)), '+')) == LowerAll(u, TrimAll(u, Split(s, '+')))
  {
    PartsOfTrimLeft(u, s);
    PartsOfTrimRight(u, TrimLeft(u, s));
    SplitLower(u, Trim(u, s));
    var parts := Split(Trim(u, s), '+');
    forall i | 0 <= i < |parts| ensures Trim(u, Lower(u, parts[i])) == Lower(u, Trim(u, parts[i])) {
      TrimLower(u, parts[i]);
    }
  }
}
