/**
 * String helpers that follow JavaScript's built-in string semantics on
 * sequences of characters: the whitespace class shared by `\s` and
 * `String.prototype.trim`, ASCII case folding (which is exactly what a
 * non-unicode `/i` regular expression does for an ASCII pattern),
 * `indexOf`/`lastIndexOf` and `trim`.
 */
module Strings {
  import opened Wrappers

  /** The characters matched by `\s` and removed by `trim` (WhiteSpace and LineTerminator). */
  predicate IsJsWhitespace(c: char) {
    c == ' ' || c == '\t' || c == '\n' || c == '\U{000B}' || c == '\U{000C}' || c == '\r'
    || c == '\U{00A0}' || c == '\U{1680}' || ('\U{2000}' <= c <= '\U{200A}')
    || c == '\U{2028}' || c == '\U{2029}' || c == '\U{202F}' || c == '\U{205F}'
    || c == '\U{3000}' || c == '\U{FEFF}'
  }

  /** No whitespace character at either end. */
  predicate NoEdgeWhitespace(s: string) {
    s == [] || (!IsJsWhitespace(s[0]) && !IsJsWhitespace(s[|s| - 1]))
  }

  /** No two whitespace characters next to each other. */
  predicate NoDoubleWhitespace(s: string) {
    forall i :: 0 < i < |s| ==> !(IsJsWhitespace(s[i - 1]) && IsJsWhitespace(s[i]))
  }

  lemma {:induction false} NoDoubleWhitespaceInfix(s: string, a: nat, b: nat)
    requires a <= b <= |s|
    requires NoDoubleWhitespace(s)
    ensures NoDoubleWhitespace(s[a..b])
  {
    forall i | 0 < i < b - a
      ensures !(IsJsWhitespace(s[a..b][i - 1]) && IsJsWhitespace(s[a..b][i]))
    {
      assert s[a..b][i - 1] == s[a + i - 1] && s[a..b][i] == s[a + i];
    }
  }

  function AsciiLower(c: char): char {
    if 'A' <= c <= 'Z' then (c as int + 32) as char else c
  }

  /** ASCII lower-casing: same length, no capital left, and other characters kept. */
  function Lower(s: string): (r: string)
    ensures |r| == |s| && forall i :: 0 <= i < |s| ==> r[i] == AsciiLower(s[i])
    ensures forall i :: 0 <= i < |r| ==> !('A' <= r[i] <= 'Z') && (r[i] == s[i] || 'A' <= s[i] <= 'Z')
  {
    seq(|s|, i requires 0 <= i < |s| => AsciiLower(s[i]))
  }

  /** Lower-casing twice is lower-casing once. */
  lemma LowerIdempotent(s: string)
    ensures Lower(Lower(s)) == Lower(s)
  {
  }

  predicate StartsWith(s: string, prefix: string) {
    |prefix| <= |s| && s[..|prefix|] == prefix
  }

  /** `pat`, written in lower case, occurs in `s` at index `k` ignoring ASCII case. */
  predicate MatchAt(s: string, pat: string, k: int) {
    0 <= k && k + |pat| <= |s| && Lower(s[k..k + |pat|]) == pat
  }

  /** The first index at which `pat` occurs in `s` ignoring ASCII case, as a case-insensitive search finds it. */
  function FindIgnoreCase(s: string, pat: string): (r: Option<nat>)
    ensures r.Some? ==> MatchAt(s, pat, r.value) && forall i :: 0 <= i < r.value ==> !MatchAt(s, pat, i)
    ensures r.None? ==> forall i :: !MatchAt(s, pat, i)
  {
    FindFrom(s, pat, 0)
  }

  /** The search from index `k` on. */
  function FindFrom(s: string, pat: string, k: nat): (r: Option<nat>)
    ensures r.Some? ==> k <= r.value && MatchAt(s, pat, r.value) && forall i :: k <= i < r.value ==> !MatchAt(s, pat, i)
    ensures r.None? ==> forall i :: k <= i ==> !MatchAt(s, pat, i)
    decreases |s| + 1 - k
  {
    if k + |pat| > |s| then None
    else if MatchAt(s, pat, k) then Some(k)
    else FindFrom(s, pat, k + 1)
  }

  /** A match with none before it is the one the search returns. */
  lemma FirstMatchIs(s: string, pat: string, x: nat)
    requires MatchAt(s, pat, x) && forall k :: 0 <= k < x ==> !MatchAt(s, pat, k)
    ensures FindIgnoreCase(s, pat) == Some(x)
  {
  }

  /** No ASCII case folding of a character of `m` is a character of `pat`, so `m` cannot be part of a match. */
  predicate Foreign(m: string, pat: string) {
    forall j :: 0 <= j < |m| ==> AsciiLower(m[j]) !in pat
  }

  /** The part of `s` before a match-free stretch `[0, i)` contains no match. */
  lemma {:induction false} NoMatchBeforeFirst(s: string, pat: string, i: nat)
    requires |pat| > 0 && i <= |s|
    requires forall k :: 0 <= k < i ==> !MatchAt(s, pat, k)
    ensures FindIgnoreCase(s[..i], pat).None?
  {
    forall k ensures !MatchAt(s[..i], pat, k) {
      if 0 <= k && k + |pat| <= i {
        assert s[..i][k..k + |pat|] == s[k..k + |pat|];
        assert MatchAt(s[..i], pat, k) ==> MatchAt(s, pat, k);
        assert !MatchAt(s, pat, k);
      }
    }
  }

  /**
   * No match can start in a match-free `p` or in a non-empty `m` made of
   * foreign characters, so a match in `p + m + q` is a match in `q`.
   */
  lemma {:induction false} MatchAcross(p: string, m: string, q: string, pat: string, k: int)
    requires |pat| > 0 && |m| > 0 && Foreign(m, pat) && FindIgnoreCase(p, pat).None?
    ensures k < |p| + |m| ==> !MatchAt(p + m + q, pat, k)
    ensures k >= |p| + |m| ==> (MatchAt(p + m + q, pat, k) <==> MatchAt(q, pat, k - |p| - |m|))
  {
    var t := p + m + q;
    var n := |p| + |m|;
    if 0 <= k && k + |pat| <= |t| {
      var w := t[k..k + |pat|];
      if k + |pat| <= |p| {
        assert w == p[k..k + |pat|];
        assert !MatchAt(p, pat, k);
      } else if k < n {
        var x := if k < |p| then |p| - k else 0;
        var c := m[k + x - |p|];
        assert w[x] == c;
        assert Lower(w)[x] == AsciiLower(c);
        assert AsciiLower(c) !in pat;
      } else {
        assert w == q[k - n..k - n + |pat|];
      }
    }
  }

  /** So the first match of `p + m + q` is the first match of `q`, moved right by `|p + m|`. */
  lemma {:induction false} FindAcross(p: string, m: string, q: string, pat: string)
    requires |pat| > 0 && |m| > 0 && Foreign(m, pat) && FindIgnoreCase(p, pat).None?
    ensures FindIgnoreCase(p + m + q, pat)
      == (match FindIgnoreCase(q, pat) case None => None case Some(j) => Some(|p| + |m| + j))
  {
    var t := p + m + q;
    var n := |p| + |m|;
    forall k ensures MatchAt(t, pat, k) <==> k >= n && MatchAt(q, pat, k - n) {
      MatchAcross(p, m, q, pat, k);
    }
    match FindIgnoreCase(q, pat)
    case None =>
    case Some(j) => FirstMatchIs(t, pat, n + j);
  }

  /** `pat` occurs somewhere in `s`, ignoring ASCII case. */
  predicate ContainsIgnoreCase(s: string, pat: string) {
    FindIgnoreCase(s, pat).Some?
  }

  /** `pat` occurs in `s` at index `i`. */
  predicate OccursAt(s: string, pat: string, i: int) {
    0 <= i && i + |pat| <= |s| && s[i..i + |pat|] == pat
  }

  /** `String.prototype.lastIndexOf`: the greatest index at which `pat` occurs, or -1. */
  function LastIndexOf(s: string, pat: string): (r: int)
    ensures r == -1 || 0 <= r <= |s| - |pat|
    ensures r >= 0 ==> OccursAt(s, pat, r)
    ensures forall i :: r < i ==> !OccursAt(s, pat, i)
  {
    LastIndexAtOrBefore(s, pat, |s| - |pat|)
  }

  function LastIndexAtOrBefore(s: string, pat: string, i: int): (r: int)
    requires i <= |s| - |pat|
    ensures r == -1 || 0 <= r <= i
    ensures r >= 0 ==> OccursAt(s, pat, r)
    ensures forall j :: r < j <= i ==> !OccursAt(s, pat, j)
    decreases i + 1
  {
    if i < 0 then -1
    else if s[i..i + |pat|] == pat then i
    else LastIndexAtOrBefore(s, pat, i - 1)
  }

  /** Every character of `s` is whitespace. */
  predicate AllWhitespace(s: string) {
    forall i :: 0 <= i < |s| ==> IsJsWhitespace(s[i])
  }

  /** `trimStart`: drops the leading whitespace, and only that. */
  function TrimStart(s: string): (r: string)
    ensures |r| <= |s| && r == s[|s| - |r|..]
    ensures AllWhitespace(s[..|s| - |r|])
    ensures r == [] || !IsJsWhitespace(r[0])
  {
    if s == [] || !IsJsWhitespace(s[0]) then s else TrimStart(s[1..])
  }

  /** `trimEnd`: drops the trailing whitespace, and only that. */
  function TrimEnd(s: string): (r: string)
    ensures |r| <= |s| && r == s[..|r|]
    ensures AllWhitespace(s[|r|..])
    ensures r == [] || !IsJsWhitespace(r[|r| - 1])
  {
    if s == [] || !IsJsWhitespace(s[|s| - 1]) then s else TrimEnd(s[..|s| - 1])
  }

  /**
   * `trim`: the infix of `s` left after dropping whitespace at both ends; what
   * is dropped is whitespace, and what is kept has none at its ends.
   */
  function Trim(s: string): (r: string)
    ensures NoEdgeWhitespace(r)
    ensures exists a: nat, b: nat {:trigger s[a..b]} ::
      a <= b <= |s| && r == s[a..b] && AllWhitespace(s[..a]) && AllWhitespace(s[b..])
  {
    TrimParts(s);
    TrimEnd(TrimStart(s))
  }

  /** `trimEnd(trimStart(s))` is an infix of `s` with only whitespace around it. */
  lemma {:induction false} TrimParts(s: string)
    ensures var r := TrimEnd(TrimStart(s)); var a := |s| - |TrimStart(s)|; var b := a + |r|;
      a <= b <= |s| && r == s[a..b] && AllWhitespace(s[..a]) && AllWhitespace(s[b..])
  {
    TrimInfix(s);
  }

  /** The kept part, as an infix of `s`. */
  lemma {:induction false} TrimInfix(s: string)
    ensures var t := TrimStart(s); var r := TrimEnd(t); var a := |s| - |t|; r == s[a..a + |r|]
  {
    var t := TrimStart(s);
    var a := |s| - |t|;
    assert t == s[a..];
  }

  /** Trimming a string without edge whitespace changes nothing. */
  lemma TrimOfTrimmed(s: string)
    requires NoEdgeWhitespace(s)
    ensures Trim(s) == s
  {
  }

  /** An exact occurrence of a pattern without capitals is a case-insensitive one. */
  lemma MatchAtOfExact(s: string, pat: string, k: nat)
    requires k + |pat| <= |s| && s[k..k + |pat|] == pat
    requires forall i :: 0 <= i < |pat| ==> !('A' <= pat[i] <= 'Z')
    ensures MatchAt(s, pat, k)
  {
    assert Lower(s[k..k + |pat|]) == pat;
  }

  /**
   * A pattern whose first character is not a letter does not occur where no
   * position holds its first two characters (the second up to case).
   */
  lemma NotFoundByFirstTwo(s: string, pat: string)
    requires |pat| >= 2 && !('a' <= pat[0] <= 'z')
    requires forall i :: 0 <= i < |s| - 1 ==> !(s[i] == pat[0] && AsciiLower(s[i + 1]) == pat[1])
    ensures FindIgnoreCase(s, pat).None?
  {
    forall i ensures !MatchAt(s, pat, i) {
      if 0 <= i && i + |pat| <= |s| {
        var w := s[i..i + |pat|];
        assert Lower(w)[0] == AsciiLower(s[i]) && Lower(w)[1] == AsciiLower(s[i + 1]);
      }
    }
  }
}
