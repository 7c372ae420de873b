/** SanitizeTranscript of internal/utils/sanitize.go: a scanner that blanks bracketed tokens such as
    "[music]", followed by white-space normalisation. */
module Sanitize {
  import opened Text

  // The class [\p{L}0-9_\-] of tokenPattern
  predicate TokenChar(u: Unicode, c: char) {
    u.letter(c) || '0' <= c <= '9' || c == '_' || c == '-'
  }

  /** The length of the longest prefix of token characters. */
  function WordLength(u: Unicode, s: string): (n: nat)
    ensures n <= |s|
    ensures forall i :: 0 <= i < n ==> TokenChar(u, s[i])
    ensures n < |s| ==> !TokenChar(u, s[n])
  {
    if s != "" && TokenChar(u, s[0]) then 1 + WordLength(u, s[1..]) else 0
  }

  /** The length of the token that `s` begins with, 0 if it begins with none. A token holds no ']', so
      the pattern matches at most one length. */
  function TokenLength(u: Unicode, s: string): (n: nat)
    ensures n == 0 || 3 <= n <= |s|
  {
    if s == "" || s[0] != '[' then 0
    else
      var w := WordLength(u, s[1..]);
      if w > 0 && w + 1 < |s| && s[w + 1] == ']' then w + 2 else 0
  }

  // tokenPattern.ReplaceAllString(s, " "): leftmost matches, left to right
  function BlankTokens(u: Unicode, s: string): string {
    if s == "" then ""
    else if TokenLength(u, s) > 0 then " " + BlankTokens(u, s[TokenLength(u, s)..])
    else [s[0]] + BlankTokens(u, s[1..])
  }

  /** The length of the longest prefix without white space. */
  function FieldLength(u: Unicode, s: string): (n: nat)
    ensures n <= |s|
    ensures forall i :: 0 <= i < n ==> !u.space(s[i])
    ensures n < |s| ==> u.space(s[n])
  {
    if s != "" && !u.space(s[0]) then 1 + FieldLength(u, s[1..]) else 0
  }

  // strings.Fields
  function Fields(u: Unicode, s: string): seq<string>
    decreases |s|
  {
    if s == "" then []
    else if u.space(s[0]) then Fields(u, s[1..])
    else
      var n := FieldLength(u, s);
      [s[..n]] + Fields(u, s[n..])
  }

  function SanitizeTranscript(u: Unicode, input: string): string {
    if input == "" then ""
    else Trim(u, Join(Fields(u, BlankTokens(u, input)), ' '))
  }

  // ----- What a clean transcript is

  predicate IsToken(u: Unicode, s: string) {
    && |s| >= 3 && s[0] == '[' && s[|s| - 1] == ']'
    && forall i :: 0 < i < |s| - 1 ==> TokenChar(u, s[i])
  }

  predicate TokenFree(u: Unicode, s: string) {
    forall i, j :: 0 <= i <= j <= |s| ==> !IsToken(u, s[i..j])
  }

  /** White space is single blanks strictly inside the text. */
  predicate NormalSpace(u: Unicode, s: string) {
    && Trimmed(u, s)
    && (forall i :: 0 <= i < |s| && u.space(s[i]) ==> s[i] == ' ')
    && (forall i :: 0 < i < |s| && u.space(s[i]) ==> !u.space(s[i - 1]))
  }

  predicate Clean(u: Unicode, s: string) {
    TokenFree(u, s) && NormalSpace(u, s)
  }

  /** A word: a non-empty string without white space and without tokens. */
  predicate Word(u: Unicode, w: string) {
    w != "" && TokenFree(u, w) && forall c :: c in w ==> !u.space(c)
  }

  // ----- The scanner

  lemma TokenLengthIsToken(u: Unicode, s: string)
    ensures TokenLength(u, s) > 0 ==> IsToken(u, s[..TokenLength(u, s)])
    ensures forall j :: 0 <= j <= |s| && IsToken(u, s[..j]) ==> TokenLength(u, s) == j
  {
    forall j | 0 <= j <= |s| && IsToken(u, s[..j]) ensures TokenLength(u, s) == j {
      var t, w := s[..j], WordLength(u, s[1..]);
      assert s[0] == t[0] && s[j - 1] == t[j - 1];
      assert forall k :: 0 <= k < j - 2 ==> s[1..][k] == t[k + 1];
      assert s[1..][j - 2] == ']';
    }
  }

  /** Which characters a token is made of. */
  lemma OneCharacterToken(u: Unicode, c: char)
    ensures BlankTokens(u, "[" + [c] + "]") == " " <==> u.letter(c) || '0' <= c <= '9' || c == '_' || c == '-'
  {
    var s := "[" + [c] + "]";
    assert s == ['[', c, ']'];
    TokenLengthIsToken(u, s);
    assert s[..3] == s;
    if IsToken(u, s) {
      assert s[3..] == "";
    } else {
      assert |BlankTokens(u, s)| > 0 && BlankTokens(u, s)[0] == '[';
    }
  }

  /** A text free of tokens is copied unchanged, and only such a text is. */
  lemma {:induction false} BlankTokensFixpoint(u: Unicode, s: string)
    requires TokenFree(u, s)
    ensures BlankTokens(u, s) == s
  {
    if s != "" {
      TokenLengthIsToken(u, s);
      assert s[..TokenLength(u, s)] == s[0..TokenLength(u, s)];
      TokenFreeSlice(u, s, 1, |s|);
      assert s[1..|s|] == s[1..];
      BlankTokensFixpoint(u, s[1..]);
    }
  }

  lemma TokenFreeSlice(u: Unicode, s: string, a: nat, b: nat)
    requires a <= b <= |s| && TokenFree(u, s)
    ensures TokenFree(u, s[a..b])
  {
    var t := s[a..b];
    forall i, j | 0 <= i <= j <= |t| ensures !IsToken(u, t[i..j]) {
      assert forall k :: 0 <= k < j - i ==> t[i..j][k] == s[a + i + k];
      assert t[i..j] == s[a + i..a + j];
    }
  }

  /** Up to the first blank, the scanner's output is its input. */
  lemma {:induction false} BlankTokensPrefix(u: Unicode, s: string, k: nat)
    requires k <= |BlankTokens(u, s)|
    requires forall i :: 0 <= i < k ==> BlankTokens(u, s)[i] != ' '
    ensures k <= |s| && BlankTokens(u, s)[..k] == s[..k]
  {
    if s != "" && k > 0 {
      assert BlankTokens(u, s)[0] != ' ';
      assert TokenLength(u, s) == 0;
      var rest := BlankTokens(u, s[1..]);
      assert forall i :: 0 <= i < k - 1 ==> rest[i] == BlankTokens(u, s)[i + 1];
      BlankTokensPrefix(u, s[1..], k - 1);
      assert BlankTokens(u, s)[..k] == [s[0]] + rest[..k - 1];
      assert s[..k] == [s[0]] + s[1..][..k - 1];
    }
  }

  lemma TokenHasNoSpace(u: Unicode, t: string)
    requires IsToken(u, t)
    ensures forall c :: c in t ==> !u.space(c)
  {
    assert t[0] == '[' && t[|t| - 1] == ']';
  }

  lemma NoTokenBegins(u: Unicode, s: string, j: nat)
    requires j <= |BlankTokens(u, s)|
    ensures !IsToken(u, BlankTokens(u, s)[..j])
  {
    var out := BlankTokens(u, s);
    if IsToken(u, out[..j]) {
      TokenHasNoSpace(u, out[..j]);
      assert forall l :: 0 <= l < j ==> out[l] == out[..j][l];
      BlankTokensPrefix(u, s, j);
      TokenLengthIsToken(u, s);
      assert false;
    }
  }

  lemma TailSlice(s: string, i: nat, j: nat)
    requires 0 < i <= j <= |s|
    ensures s[i..j] == s[1..][i - 1..j - 1]
  {
    assert forall k :: 0 <= k < j - i ==> s[i..j][k] == s[1..][i - 1..j - 1][k];
  }

  lemma TokenFreeCons(u: Unicode, s: string)
    requires s != "" && TokenFree(u, s[1..])
    requires forall j :: 0 <= j <= |s| ==> !IsToken(u, s[..j])
    ensures TokenFree(u, s)
  {
    forall i, j | 0 <= i <= j <= |s| ensures !IsToken(u, s[i..j]) {
      if i > 0 {
        TailSlice(s, i, j);
      } else {
        assert s[0..j] == s[..j];
      }
    }
  }

  /** Nothing that the scanner outputs is a token: blanking cannot create one, since a token holds no blank. */
  lemma {:induction false} BlankTokensIsTokenFree(u: Unicode, s: string)
    ensures TokenFree(u, BlankTokens(u, s))
    decreases |s|
  {
    if s != "" {
      var n, out := TokenLength(u, s), BlankTokens(u, s);
      var rest := if n > 0 then s[n..] else s[1..];
      BlankTokensIsTokenFree(u, rest);
      assert out[1..] == BlankTokens(u, rest);
      forall j | 0 <= j <= |out| ensures !IsToken(u, out[..j]) {
        NoTokenBegins(u, s, j);
      }
      TokenFreeCons(u, out);
    }
  }

  /** Tokens do not reach across white space. */
  lemma {:induction false} BlankTokensAcrossSpace(u: Unicode, a: string, c: char, b: string)
    requires u.space(c)
    ensures BlankTokens(u, a + [c] + b) == BlankTokens(u, a) + [c] + BlankTokens(u, b)
  {
    var s := a + [c] + b;
    if a == "" {
      assert s[0] == c && c != '[' && s[1..] == b;
    } else {
      SameToken(u, a, c, b);
      var n := TokenLength(u, a);
      if n > 0 {
        assert s[n..] == a[n..] + [c] + b;
        BlankTokensAcrossSpace(u, a[n..], c, b);
        Regroup(" ", BlankTokens(u, a[n..]), [c], BlankTokens(u, b));
      } else {
        assert s[0] == a[0] && s[1..] == a[1..] + [c] + b;
        BlankTokensAcrossSpace(u, a[1..], c, b);
        Regroup([a[0]], BlankTokens(u, a[1..]), [c], BlankTokens(u, b));
      }
    }
  }

  lemma Regroup(a: string, b: string, c: string, d: string)
    ensures a + (b + c + d) == (a + b) + c + d
  {
  }

  lemma SameToken(u: Unicode, a: string, c: char, b: string)
    requires a != "" && u.space(c)
    ensures TokenLength(u, a + [c] + b) == TokenLength(u, a)
  {
    var s := a + [c] + b;
    TokenLengthIsToken(u, a);
    TokenLengthIsToken(u, s);
    var n := TokenLength(u, s);
    if n > |a| {
      assert s[..n][|a|] == c;
      TokenHasNoSpace(u, s[..n]);
    } else if n > 0 {
      assert s[..n] == a[..n];
    }
    if TokenLength(u, a) > 0 {
      assert s[..TokenLength(u, a)] == a[..TokenLength(u, a)];
    }
  }

  lemma BlankTokensStep(u: Unicode, s: string, head: string, k: nat)
    requires s != ""
    requires if TokenLength(u, s) > 0 then k == TokenLength(u, s) && head == " " else k == 1 && head == [s[0]]
    ensures BlankTokens(u, s) == head + BlankTokens(u, s[k..])
  {
  }

  lemma SkipInto(a: string, b: string, c: string, k: nat)
    requires k <= |a|
    ensures (a + b + c)[k..] == a[k..] + b + c
  {
  }

  lemma NoBracketInside(u: Unicode, t: string)
    requires IsToken(u, t)
    ensures forall k :: 0 < k < |t| ==> t[k] != '['
  {
  }

  /** A token begins where it stands, whatever is before it and behind it. */
  lemma SameTokenBefore(u: Unicode, a: string, t: string, b: string)
    requires IsToken(u, t)
    ensures TokenLength(u, a + t + b) == if a == "" then |t| else TokenLength(u, a)
  {
    var s := a + t + b;
    TokenLengthIsToken(u, a);
    TokenLengthIsToken(u, s);
    if a == "" {
      assert s[..|t|] == t;
    } else {
      var n := TokenLength(u, s);
      assert s[|a|] == '[';
      if n > 0 {
        NoBracketInside(u, s[..n]);
        assert forall k :: 0 <= k < n ==> s[..n][k] == s[k];
        assert n <= |a|;
        assert s[..n] == a[..n];
      }
      if TokenLength(u, a) > 0 {
        assert s[..TokenLength(u, a)] == a[..TokenLength(u, a)];
      }
    }
  }

  /** A token becomes a blank, and the text on both sides of it is treated as if it stood alone. */
  lemma {:induction false} BlankTokensAround(u: Unicode, a: string, t: string, b: string)
    requires IsToken(u, t)
    ensures BlankTokens(u, a + t + b) == BlankTokens(u, a) + " " + BlankTokens(u, b)
    decreases |a|
  {
    var s := a + t + b;
    SameTokenBefore(u, a, t, b);
    if a == "" {
      assert s[|t|..] == b;
    } else {
      var n := TokenLength(u, a);
      var head, k := if n > 0 then " " else [a[0]], if n > 0 then n else 1;
      assert s[0] == a[0];
      BlankTokensStep(u, s, head, k);
      BlankTokensStep(u, a, head, k);
      SkipInto(a, t, b, k);
      BlankTokensAround(u, a[k..], t, b);
      Regroup(head, BlankTokens(u, a[k..]), " ", BlankTokens(u, b));
    }
  }

  // ----- Fields

  lemma {:induction false} FieldsAcrossSpace(u: Unicode, a: string, c: char, b: string)
    requires u.space(c)
    ensures Fields(u, a + [c] + b) == Fields(u, a) + Fields(u, b)
    decreases |a|
  {
    var s := a + [c] + b;
    if a == "" {
      assert s[1..] == b;
    } else if u.space(a[0]) {
      SkipInto(a, [c], b, 1);
      FieldsAcrossSpace(u, a[1..], c, b);
    } else {
      var n := FieldLength(u, a);
      assert s[..n] == a[..n];
      FirstField(u, s, n);
      FirstField(u, a, n);
      SkipInto(a, [c], b, n);
      FieldsAcrossSpace(u, a[n..], c, b);
      PrependAll(a[..n], Fields(u, a[n..]), Fields(u, b));
    }
  }

  lemma PrependAll(w: string, ws: seq<string>, vs: seq<string>)
    ensures [w] + (ws + vs) == ([w] + ws) + vs
  {
  }

  lemma FirstField(u: Unicode, s: string, n: nat)
    requires 0 < n <= |s| && (forall i :: 0 <= i < n ==> !u.space(s[i])) && (n < |s| ==> u.space(s[n]))
    ensures Fields(u, s) == [s[..n]] + Fields(u, s[n..])
    ensures n < |s| ==> Fields(u, s[n..]) == Fields(u, s[n + 1..])
  {
    FieldLengthIs(u, s, n);
    if n < |s| {
      assert s[n..][1..] == s[n + 1..];
    }
  }

  lemma FieldLengthIs(u: Unicode, s: string, n: nat)
    requires n <= |s| && (forall i :: 0 <= i < n ==> !u.space(s[i])) && (n < |s| ==> u.space(s[n]))
    ensures FieldLength(u, s) == n
  {
  }

  lemma {:induction false} FieldsAreWords(u: Unicode, s: string)
    requires TokenFree(u, s)
    ensures forall w :: w in Fields(u, s) ==> Word(u, w)
    decreases |s|
  {
    if s != "" {
      var n := if u.space(s[0]) then 1 else FieldLength(u, s);
      TokenFreeSlice(u, s, 0, n);
      TokenFreeSlice(u, s, n, |s|);
      assert s[0..n] == s[..n] && s[n..|s|] == s[n..];
      FieldsAreWords(u, s[n..]);
      assert forall c :: c in s[..n] ==> exists i :: 0 <= i < n && s[i] == c;
    }
  }

  lemma FieldsOfWord(u: Unicode, w: string)
    requires Word(u, w)
    ensures Fields(u, w) == [w]
  {
    assert forall i :: 0 <= i < |w| ==> w[i] in w;
    FieldLengthIs(u, w, |w|);
    assert w[..|w|] == w && w[|w|..] == "";
  }

  // ----- The words of a transcript

  /** The words that sanitizing keeps. */
  function Words(u: Unicode, s: string): seq<string> {
    Fields(u, BlankTokens(u, s))
  }

  lemma WordsAcrossSpace(u: Unicode, a: string, c: char, b: string)
    requires u.space(c)
    ensures Words(u, a + [c] + b) == Words(u, a) + Words(u, b)
  {
    BlankTokensAcrossSpace(u, a, c, b);
    FieldsAcrossSpace(u, BlankTokens(u, a), c, BlankTokens(u, b));
  }

  lemma WordsAreWords(u: Unicode, s: string)
    ensures forall w :: w in Words(u, s) ==> Word(u, w)
  {
    BlankTokensIsTokenFree(u, s);
    FieldsAreWords(u, BlankTokens(u, s));
  }

  lemma {:induction false} WordsOfJoin(u: Unicode, ws: seq<string>)
    requires forall w :: w in ws ==> Word(u, w)
    ensures Words(u, Join(ws, ' ')) == ws
  {
    if |ws| == 1 {
      assert ws[0] in ws;
      BlankTokensFixpoint(u, ws[0]);
      FieldsOfWord(u, ws[0]);
    } else if |ws| > 1 {
      assert ws[0] in ws && forall w :: w in ws[1..] ==> w in ws;
      WordsOfJoin(u, ws[1..]);
      BlankTokensFixpoint(u, ws[0]);
      FieldsOfWord(u, ws[0]);
      WordsAcrossSpace(u, ws[0], ' ', Join(ws[1..], ' '));
    }
  }

  lemma {:induction false} JoinOfWordsIsClean(u: Unicode, ws: seq<string>)
    requires forall w :: w in ws ==> Word(u, w)
    ensures Clean(u, Join(ws, ' '))
    ensures ws != [] ==> Join(ws, ' ') != ""
  {
    if |ws| == 1 {
      assert ws[0] in ws;
      assert forall i :: 0 <= i < |ws[0]| ==> ws[0][i] in ws[0];
    } else if |ws| > 1 {
      var w, rest := ws[0], Join(ws[1..], ' ');
      assert w in ws;
      assert forall i :: 0 <= i < |w| ==> w[i] in w;
      JoinOfWordsIsClean(u, ws[1..]);
      TokenFreeAcrossSpace(u, w, ' ', rest);
      NormalSpaceJoin(u, w, rest);
    }
  }

  lemma TokenFreeAcrossSpace(u: Unicode, a: string, c: char, b: string)
    requires TokenFree(u, a) && TokenFree(u, b) && u.space(c)
    ensures TokenFree(u, a + [c] + b)
  {
    var s := a + [c] + b;
    forall i, j | 0 <= i <= j <= |s| ensures !IsToken(u, s[i..j]) {
      if i <= |a| < j {
        assert s[i..j][|a| - i] == c;
        if IsToken(u, s[i..j]) {
          TokenHasNoSpace(u, s[i..j]);
        }
      } else if j <= |a| {
        assert s[i..j] == a[i..j];
      } else {
        assert s[i..j] == b[i - |a| - 1..j - |a| - 1];
      }
    }
  }

  lemma NormalSpaceJoin(u: Unicode, w: string, rest: string)
    requires w != "" && rest != "" && (forall i :: 0 <= i < |w| ==> !u.space(w[i])) && NormalSpace(u, rest)
    ensures NormalSpace(u, w + [' '] + rest)
  {
    var s := w + [' '] + rest;
    forall i | 0 <= i < |s| && u.space(s[i]) ensures s[i] == ' ' && (i > 0 ==> !u.space(s[i - 1])) {
      if i > |w| {
        assert s[i] == rest[i - |w| - 1];
        if i > |w| + 1 {
          assert s[i - 1] == rest[i - |w| - 2];
        }
      }
    }
  }

  /** Sanitizing is joining the words; the final trim never removes anything. */
  lemma SanitizedIsJoin(u: Unicode, s: string)
    ensures SanitizeTranscript(u, s) == Join(Words(u, s), ' ')
  {
    WordsAreWords(u, s);
    JoinOfWordsIsClean(u, Words(u, s));
    TrimIsTrimmed(u, Join(Words(u, s), ' '));
  }

  // ----- Main results

  /** The result holds no token, and no leading, trailing, doubled or unusual white space. */
  lemma SanitizedIsClean(u: Unicode, s: string)
    ensures Clean(u, SanitizeTranscript(u, s))
  {
    SanitizedIsJoin(u, s);
    WordsAreWords(u, s);
    JoinOfWordsIsClean(u, Words(u, s));
  }

  /** Sanitizing again keeps exactly the same words, so the engine and the service may both do it. */
  lemma SanitizeIdempotent(u: Unicode, s: string)
    ensures Words(u, SanitizeTranscript(u, s)) == Words(u, s)
    ensures SanitizeTranscript(u, SanitizeTranscript(u, s)) == SanitizeTranscript(u, s)
  {
    SanitizedIsJoin(u, s);
    WordsAreWords(u, s);
    WordsOfJoin(u, Words(u, s));
    SanitizedIsJoin(u, SanitizeTranscript(u, s));
  }

  /** Sanitizing segment by segment before joining them gives the same transcript. */
  lemma SanitizeSegments(u: Unicode, a: string, b: string)
    ensures SanitizeTranscript(u, a + " " + b)
         == SanitizeTranscript(u, SanitizeTranscript(u, a) + " " + SanitizeTranscript(u, b))
  {
    var sa, sb := SanitizeTranscript(u, a), SanitizeTranscript(u, b);
    WordsAcrossSpace(u, a, ' ', b);
    SanitizeIdempotent(u, a);
    SanitizeIdempotent(u, b);
    WordsAcrossSpace(u, sa, ' ', sb);
    SanitizedIsJoin(u, a + " " + b);
    SanitizedIsJoin(u, sa + " " + sb);
  }

  /** The first token of a text becomes a blank and the text before it is kept as it is. Together with the texts that have
      no token, which are kept whole, this determines the scanner on every text. */
  lemma FirstTokenBlanked(u: Unicode, a: string, t: string, b: string)
    requires TokenFree(u, a) && IsToken(u, t)
    ensures BlankTokens(u, a + t + b) == a + " " + BlankTokens(u, b)
  {
    BlankTokensAround(u, a, t, b);
    BlankTokensFixpoint(u, a);
  }

  /** A token anywhere in a text counts as a blank and no more: what touches it on either side is kept. */
  lemma SanitizeAroundToken(u: Unicode, a: string, t: string, b: string)
    requires IsToken(u, t)
    ensures SanitizeTranscript(u, a + t + b) == SanitizeTranscript(u, a + " " + b)
    ensures Words(u, a + t + b) == Words(u, a) + Words(u, b)
  {
    BlankTokensAround(u, a, t, b);
    BlankTokensAcrossSpace(u, a, ' ', b);
    FieldsAcrossSpace(u, BlankTokens(u, a), ' ', BlankTokens(u, b));
    SanitizedIsJoin(u, a + t + b);
    SanitizedIsJoin(u, a + " " + b);
  }

  // How whisper.go writes out its segments: each one followed by a blank
  function Written(segments: seq<string>): string {
    if segments == [] then "" else segments[0] + " " + Written(segments[1..])
  }

  /** A transcript written segment by segment keeps the words of its segments in order. */
  lemma {:induction false} SanitizeWritten(u: Unicode, segments: seq<string>)
    ensures Words(u, Written(segments)) == AllWords(u, segments)
    ensures SanitizeTranscript(u, Written(segments)) == Join(AllWords(u, segments), ' ')
  {
    if segments == [] {
      assert Words(u, "") == [];
    } else {
      SanitizeWritten(u, segments[1..]);
      WordsAcrossSpace(u, segments[0], ' ', Written(segments[1..]));
    }
    SanitizedIsJoin(u, Written(segments));
  }

  function AllWords(u: Unicode, segments: seq<string>): seq<string> {
    if segments == [] then [] else Words(u, segments[0]) + AllWords(u, segments[1..])
  }

  /** The fixed points are exactly the clean transcripts. */
  lemma SanitizeFixpoint(u: Unicode, s: string)
    ensures SanitizeTranscript(u, s) == s <==> Clean(u, s)
  {
    SanitizedIsClean(u, s);
    if Clean(u, s) {
      BlankTokensFixpoint(u, s);
      JoinFields(u, s);
      SanitizedIsJoin(u, s);
    }
  }

  lemma {:induction false} JoinFields(u: Unicode, s: string)
    requires NormalSpace(u, s)
    ensures Join(Fields(u, s), ' ') == s
    decreases |s|
  {
    if s != "" {
      var n := FieldLength(u, s);
      FirstField(u, s, n);
      if n == |s| {
        assert s[..n] == s && s[n..] == "" && Fields(u, "") == [];
      } else {
        assert n + 1 < |s|;
        var rest := s[n + 1..];
        assert !u.space(rest[0]) && s[n] == ' ';
        NormalSpaceSuffix(u, s, n + 1);
        JoinFields(u, rest);
        JoinCons(s[..n], Fields(u, rest));
        assert s == s[..n] + [' '] + rest;
      }
    }
  }

  lemma JoinCons(w: string, rest: seq<string>)
    requires rest != []
    ensures Join([w] + rest, ' ') == w + [' '] + Join(rest, ' ')
  {
    assert ([w] + rest)[1..] == rest;
  }

  lemma NormalSpaceSuffix(u: Unicode, s: string, k: nat)
    requires NormalSpace(u, s) && k < |s| && !u.space(s[k])
    ensures NormalSpace(u, s[k..])
  {
    var t := s[k..];
    forall i | 0 < i < |t| && u.space(t[i]) ensures !u.space(t[i - 1]) {
      assert t[i] == s[k + i] && t[i - 1] == s[k + i - 1];
    }
  }
}
