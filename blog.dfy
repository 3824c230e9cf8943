/**
 * Post previews on the blog page (app/blog/page.tsx): `extractTextFromHtml`,
 * a fixed chain of global replacements followed by `trim`, and
 * `buildSnippet`, which picks the first non-empty text field of a feed item
 * and cuts it to a sentence or word boundary between 300 and 400 characters.
 */
module Blog {
  import opened Wrappers
  import opened Strings

  // -------------------------------------------------------- replacements

  /**
   * No block is left: the first `open` (ignoring case) has no `close` after
   * it, so neither has any later `open`.
   */
  predicate NoBlock(s: string, open: string, close: string) {
    match FindIgnoreCase(s, open)
    case None => true
    case Some(i) => FindIgnoreCase(s[i + |open|..], close).None?
  }

  /**
   * `s.replace(/<open[\s\S]*?close/gi, ' ')`: every block from `open` to the
   * nearest following `close` becomes one space, left to right. When an
   * opening has no closing after it, no later opening has one either. For an
   * opening without a space (as `<script` and `<style`), no block is left.
   */
  function RemoveBlocks(s: string, open: string, close: string): (r: string)
    requires |open| > 0
    ensures FindIgnoreCase(s, open).None? ==> r == s
    ensures |r| <= |s|
    ensures ' ' !in open ==> NoBlock(r, open, close)
    decreases |s|
  {
    match FindIgnoreCase(s, open)
    case None => s
    case Some(i) =>
      match FindIgnoreCase(s[i + |open|..], close)
      case None => s
      case Some(j) =>
        var rest := RemoveBlocks(s[i + |open| + j + |close|..], open, close);
        assert ' ' !in open ==> NoBlock(s[..i] + " " + rest, open, close) by {
          if ' ' !in open {
            NoMatchBeforeFirst(s, open, i);
            BlockSpaceNoBlock(s[..i], rest, open, close);
          }
        }
        s[..i] + " " + rest
  }

  /** A prefix without `open`, then a space, then a text without blocks, has no blocks. */
  lemma {:induction false} BlockSpaceNoBlock(p: string, rest: string, open: string, close: string)
    requires |open| > 0 && ' ' !in open && FindIgnoreCase(p, open).None? && NoBlock(rest, open, close)
    ensures NoBlock(p + " " + rest, open, close)
  {
    var t := p + " " + rest;
    assert Foreign(" ", open);
    FindAcross(p, " ", rest, open);
    assert t[|p| + 1..] == rest;
    NoBlockShifted(t, rest, open, close, |p| + 1);
  }

  /** A text whose first `open` is that of its suffix `rest`, moved right, has no blocks when `rest` has none. */
  lemma NoBlockShifted(t: string, rest: string, open: string, close: string, n: nat)
    requires n <= |t| && t[n..] == rest && NoBlock(rest, open, close)
    requires FindIgnoreCase(t, open)
      == (match FindIgnoreCase(rest, open) case None => None case Some(k) => Some(n + k))
    ensures NoBlock(t, open, close)
  {
    match FindIgnoreCase(rest, open)
    case None =>
    case Some(k) =>
      assert t[n + k + |open|..] == rest[k + |open|..];
  }

  /** The first index of `c` in `s`. */
  function FindChar(s: string, c: char): (r: Option<nat>)
    ensures r.Some? ==> r.value < |s| && s[r.value] == c && forall i :: 0 <= i < r.value ==> s[i] != c
    ensures r.None? ==> forall i :: 0 <= i < |s| ==> s[i] != c
  {
    if s == [] then None
    else if s[0] == c then Some(0)
    else
      match FindChar(s[1..], c)
      case None => None
      case Some(k) => Some(k + 1)
  }

  /**
   * No match of `<[^>]+>` is left: every `<` that has a `>` somewhere after
   * it is directly followed by `>`.
   */
  predicate NoTag(s: string) {
    forall i, j :: 0 <= i < j < |s| && s[i] == '<' && s[j] == '>' ==> s[i + 1] == '>'
  }

  /**
   * `s.replace(/<[^>]+>/g, ' ')`: a `<`, at least one character other than
   * `>`, and the next `>` become one space. No tag is left, and a first
   * character that does not open a tag is kept.
   */
  function StripTags(s: string): (r: string)
    ensures (forall i :: 0 <= i < |s| ==> s[i] != '>') ==> r == s
    ensures NoTag(r) && |r| <= |s|
    ensures s != [] && s[0] != '<' ==> r != [] && r[0] == s[0]
    decreases |s|
  {
    if s == [] then []
    else
      var k := FindChar(s, '>');
      if s[0] == '<' && k.Some? && k.value >= 2 then
        var rest := StripTags(s[k.value + 1..]);
        NoTagAfter(' ', rest);
        " " + rest
      else
        var rest := StripTags(s[1..]);
        KeptFirst(s, k, rest);
        [s[0]] + rest
  }

  /** A first character that does not open a tag is kept, in front of the rest stripped. */
  lemma KeptFirst(s: string, k: Option<nat>, rest: string)
    requires s != [] && k == FindChar(s, '>') && !(s[0] == '<' && k.Some? && k.value >= 2)
    requires (forall i :: 0 <= i < |s| - 1 ==> s[1..][i] != '>') ==> rest == s[1..]
    requires NoTag(rest) && |rest| <= |s| - 1
    requires |s| > 1 && s[1] != '<' ==> rest != [] && rest[0] == s[1]
    ensures (forall i :: 0 <= i < |s| ==> s[i] != '>') ==> [s[0]] + rest == s
    ensures NoTag([s[0]] + rest)
  {
    assert s[0] == '<' ==> (forall j :: 0 <= j < |rest| ==> rest[j] != '>') || (rest != [] && rest[0] == '>') by {
      if s[0] == '<' && k.Some? {
        assert s[1..][0] == '>';
      }
    }
    NoTagAfter(s[0], rest);
    if forall i :: 0 <= i < |s| ==> s[i] != '>' {
      assert forall i :: 0 <= i < |s| - 1 ==> s[1..][i] == s[i + 1];
      assert [s[0]] + s[1..] == s;
    }
  }

  /** Putting a character before a text without tags makes no tag, unless it is a `<` ahead of a later `>`. */
  lemma NoTagAfter(c: char, rest: string)
    requires NoTag(rest)
    requires c == '<' ==> (forall j :: 0 <= j < |rest| ==> rest[j] != '>') || (rest != [] && rest[0] == '>')
    ensures NoTag([c] + rest)
  {
    var s := [c] + rest;
    forall i, j | 0 <= i < j < |s| && s[i] == '<' && s[j] == '>' ensures s[i + 1] == '>' {
      if i > 0 {
        assert rest[i - 1] == '<' && rest[j - 1] == '>';
      } else {
        assert rest[j - 1] == '>';
      }
    }
  }

  /** The replacement cannot take part in a match of `pat`. */
  predicate Inert(rep: string, pat: string) {
    |rep| > 0 && Foreign(rep, pat)
  }

  /**
   * `s.replace(/pat/gi, rep)` for a literal `pat`: leftmost, non-overlapping,
   * case-insensitive. When the replacement cannot be part of a match, none is
   * left.
   */
  function ReplaceAll(s: string, pat: string, rep: string): (r: string)
    requires |pat| > 0
    ensures FindIgnoreCase(s, pat).None? ==> r == s
    ensures Inert(rep, pat) ==> FindIgnoreCase(r, pat).None?
    decreases |s|
  {
    match FindIgnoreCase(s, pat)
    case None => s
    case Some(i) =>
      var rest := ReplaceAll(s[i + |pat|..], pat, rep);
      assert Inert(rep, pat) ==> FindIgnoreCase(s[..i] + rep + rest, pat).None? by {
        if Inert(rep, pat) {
          NoMatchBeforeFirst(s, pat, i);
          FindAcross(s[..i], rep, rest, pat);
        }
      }
      s[..i] + rep + rest
  }

  /** A suffix of a text without a match has none. */
  lemma NoMatchInSuffix(s: string, pat: string, a: nat)
    requires a <= |s| && FindIgnoreCase(s, pat).None?
    ensures FindIgnoreCase(s[a..], pat).None?
  {
    forall k ensures !MatchAt(s[a..], pat, k) {
      if 0 <= k && k + |pat| <= |s| - a {
        assert s[a..][k..k + |pat|] == s[a + k..a + k + |pat|];
        assert !MatchAt(s, pat, a + k);
      }
    }
  }

  /** Replacing `pat` by a text that cannot be part of a match of `other` adds no match of `other`. */
  lemma ReplaceAllKeepsAbsent(s: string, pat: string, rep: string, other: string)
    requires |pat| > 0 && |other| > 0 && Inert(rep, other) && FindIgnoreCase(s, other).None?
    ensures FindIgnoreCase(ReplaceAll(s, pat, rep), other).None?
  {
    NoMatchIsNone(s, other);
    NoMatchKept(s, pat, rep, other);
    NoMatchIsNone(ReplaceAll(s, pat, rep), other);
  }

  /** `pat` occurs nowhere in `s`, ignoring case. */
  ghost predicate NoMatch(s: string, pat: string) {
    forall k :: !MatchAt(s, pat, k)
  }

  /** The search finds nothing exactly when there is no match. */
  lemma NoMatchIsNone(s: string, pat: string)
    ensures NoMatch(s, pat) <==> FindIgnoreCase(s, pat).None?
  {
    var f := FindIgnoreCase(s, pat);
    if f.Some? {
      assert MatchAt(s, pat, f.value);
    }
  }

  lemma {:induction false} NoMatchKept(s: string, pat: string, rep: string, other: string)
    requires |pat| > 0 && |other| > 0 && Inert(rep, other) && NoMatch(s, other)
    ensures NoMatch(ReplaceAll(s, pat, rep), other)
    decreases |s|, 1
  {
    match FindIgnoreCase(s, pat)
    case None =>
    case Some(i) =>
      assert NoMatch(s[..i] + rep + ReplaceAll(s[i + |pat|..], pat, rep), other) by {
        NoMatchKeptAt(s, pat, rep, other, i);
      }
  }

  /** The same, at the first match of `pat`: the text before it, `rep`, then the replaced rest. */
  lemma {:induction false} NoMatchKeptAt(s: string, pat: string, rep: string, other: string, i: nat)
    requires |pat| > 0 && |other| > 0 && Inert(rep, other) && NoMatch(s, other)
    requires i + |pat| <= |s|
    ensures NoMatch(s[..i] + rep + ReplaceAll(s[i + |pat|..], pat, rep), other)
    decreases |s|, 0
  {
    var tail := s[i + |pat|..];
    var rest := ReplaceAll(tail, pat, rep);
    NoMatchIsNone(s, other);
    assert NoMatch(tail, other) by {
      NoMatchInSuffix(s, other, i + |pat|);
      NoMatchIsNone(tail, other);
    }
    NoMatchKept(tail, pat, rep, other);
    assert FindIgnoreCase(s[..i] + rep + rest, other).None? by {
      NoMatchIsNone(rest, other);
      AbsentAround(s, rep, rest, other, i);
    }
    NoMatchIsNone(s[..i] + rep + rest, other);
  }

  /** Cutting `s` at `i` and putting `rep` and `rest` after the cut brings in no match of `other`. */
  lemma AbsentAround(s: string, rep: string, rest: string, other: string, i: nat)
    requires |other| > 0 && Inert(rep, other) && i <= |s|
    requires FindIgnoreCase(s, other).None? && FindIgnoreCase(rest, other).None?
    ensures FindIgnoreCase(s[..i] + rep + rest, other).None?
  {
    NoMatchBeforeFirst(s, other, i);
    FindAcross(s[..i], rep, rest, other);
  }

  /** The six entities, decoded in this order, each over the output of the one before. */
  function DecodeEntities(s: string): string {
    var a := ReplaceAll(s, "&nbsp;", " ");
    var b := ReplaceAll(a, "&amp;", "&");
    var c := ReplaceAll(b, "&lt;", "<");
    var d := ReplaceAll(c, "&gt;", ">");
    var e := ReplaceAll(d, "&quot;", "\"");
    ReplaceAll(e, "&#39;", "'")
  }

  /**
   * After decoding no `&lt;`, `&gt;`, `&quot;` or `&#39;` is left: each is
   * replaced by a character it does not contain, and the later steps write
   * none of their characters. (`&amp;` and `&nbsp;` can be left: `&amp;amp;`
   * decodes to `&amp;`.)
   */
  lemma DecodedHasNoEscapes(s: string)
    ensures var r := DecodeEntities(s);
      FindIgnoreCase(r, "&lt;").None? && FindIgnoreCase(r, "&gt;").None?
      && FindIgnoreCase(r, "&quot;").None? && FindIgnoreCase(r, "&#39;").None?
  {
    var a := ReplaceAll(s, "&nbsp;", " ");
    var b := ReplaceAll(a, "&amp;", "&");
    var c := ReplaceAll(b, "&lt;", "<");
    InertChars("<", "&lt;");
    assert FindIgnoreCase(c, "&lt;").None?;
    var d := ReplaceAll(c, "&gt;", ">");
    InertChars(">", "&gt;");
    InertChars(">", "&lt;");
    ReplaceAllKeepsAbsent(c, "&gt;", ">", "&lt;");
    var e := ReplaceAll(d, "&quot;", "\"");
    InertChars("\"", "&quot;");
    InertChars("\"", "&lt;");
    InertChars("\"", "&gt;");
    ReplaceAllKeepsAbsent(d, "&quot;", "\"", "&lt;");
    ReplaceAllKeepsAbsent(d, "&quot;", "\"", "&gt;");
    var f := ReplaceAll(e, "&#39;", "'");
    InertChars("'", "&#39;");
    InertChars("'", "&lt;");
    InertChars("'", "&gt;");
    InertChars("'", "&quot;");
    ReplaceAllKeepsAbsent(e, "&#39;", "'", "&lt;");
    ReplaceAllKeepsAbsent(e, "&#39;", "'", "&gt;");
    ReplaceAllKeepsAbsent(e, "&#39;", "'", "&quot;");
  }

  /** A one-character replacement that is not a character of the pattern is inert. */
  lemma InertChars(rep: string, pat: string)
    requires |rep| == 1 && !('A' <= rep[0] <= 'Z') && rep[0] !in pat
    ensures Inert(rep, pat)
  {
  }

  /** Every whitespace character of `s` is a plain space. */
  predicate OnlySpaces(s: string) {
    forall i :: 0 <= i < |s| && IsJsWhitespace(s[i]) ==> s[i] == ' '
  }

  /** The characters of `s` that are not whitespace, in order. */
  function NonWhitespace(s: string): string
    decreases |s|
  {
    if s == [] then [] else (if IsJsWhitespace(s[0]) then [] else [s[0]]) + NonWhitespace(s[1..])
  }

  /**
   * `s.replace(/\s+/g, ' ')`: each maximal run of whitespace becomes one
   * space.
   */
  function CollapseWhitespace(s: string): (r: string)
    ensures NoDoubleWhitespace(r) && OnlySpaces(r)
    ensures r == [] <==> s == []
    ensures r != [] ==> (IsJsWhitespace(r[0]) <==> IsJsWhitespace(s[0]))
    ensures r != [] ==> (IsJsWhitespace(r[|r| - 1]) <==> IsJsWhitespace(s[|s| - 1]))
    decreases |s|
  {
    if s == [] then []
    else if IsJsWhitespace(s[0]) then
      var t := TrimStart(s);
      assert |t| < |s|;
      var rest := CollapseWhitespace(t);
      assert t != [] ==> t[|t| - 1] == s[|s| - 1];
      assert t == [] ==> forall i :: 0 <= i < |s| ==> IsJsWhitespace(s[i]) by {
        if t == [] { AllWhitespaceWhenTrimmedAway(s); }
      }
      CollapsedCons(' ', rest);
      [' '] + rest
    else
      var rest := CollapseWhitespace(s[1..]);
      CollapsedCons(s[0], rest);
      [s[0]] + rest
  }

  /** A character in front of a collapsed text keeps it collapsed, if a space is not followed by whitespace. */
  lemma CollapsedCons(c: char, rest: string)
    requires NoDoubleWhitespace(rest) && OnlySpaces(rest)
    requires IsJsWhitespace(c) ==> c == ' ' && (rest == [] || !IsJsWhitespace(rest[0]))
    ensures NoDoubleWhitespace([c] + rest) && OnlySpaces([c] + rest)
    ensures ([c] + rest)[0] == c
    ensures ([c] + rest)[|rest|] == if rest == [] then c else rest[|rest| - 1]
  {
    var r := [c] + rest;
    assert forall i :: 0 < i < |r| ==> r[i] == rest[i - 1];
  }

  /** Collapsing keeps the characters that are not whitespace, in order. */
  lemma {:induction false} CollapseKeepsText(s: string)
    ensures NonWhitespace(CollapseWhitespace(s)) == NonWhitespace(s)
    decreases |s|
  {
    if s != [] {
      if IsJsWhitespace(s[0]) {
        var t := TrimStart(s);
        var rest := CollapseWhitespace(t);
        CollapseKeepsText(t);
        NonWhitespaceOfTrimStart(s);
        assert ([' '] + rest)[1..] == rest;
      } else {
        var rest := CollapseWhitespace(s[1..]);
        CollapseKeepsText(s[1..]);
        assert ([s[0]] + rest)[1..] == rest;
      }
    }
  }

  /** Leading whitespace holds no non-whitespace character. */
  lemma {:induction false} NonWhitespaceOfTrimStart(s: string)
    ensures NonWhitespace(TrimStart(s)) == NonWhitespace(s)
    decreases |s|
  {
    if s != [] && IsJsWhitespace(s[0]) {
      NonWhitespaceOfTrimStart(s[1..]);
    }
  }

  /** Taking the non-whitespace characters distributes over concatenation. */
  lemma {:induction false} NonWhitespaceConcat(a: string, b: string)
    ensures NonWhitespace(a + b) == NonWhitespace(a) + NonWhitespace(b)
    decreases |a|
  {
    if a == [] {
      assert a + b == b;
    } else {
      assert (a + b)[1..] == a[1..] + b;
      NonWhitespaceConcat(a[1..], b);
    }
  }

  /** A text made only of whitespace has no non-whitespace character. */
  lemma {:induction false} NonWhitespaceOfBlank(s: string)
    requires AllWhitespace(s)
    ensures NonWhitespace(s) == []
    decreases |s|
  {
    if s != [] {
      assert forall i :: 0 <= i < |s| - 1 ==> s[1..][i] == s[i + 1];
      NonWhitespaceOfBlank(s[1..]);
    }
  }

  /** Trailing whitespace holds no non-whitespace character. */
  lemma NonWhitespaceOfTrimEnd(s: string)
    ensures NonWhitespace(TrimEnd(s)) == NonWhitespace(s)
  {
    var r := TrimEnd(s);
    assert s == r + s[|r|..];
    NonWhitespaceConcat(r, s[|r|..]);
    NonWhitespaceOfBlank(s[|r|..]);
  }

  /** Trimming drops no character that is not whitespace. */
  lemma NonWhitespaceOfTrim(s: string)
    ensures NonWhitespace(Trim(s)) == NonWhitespace(s)
  {
    NonWhitespaceOfTrimStart(s);
    NonWhitespaceOfTrimEnd(TrimStart(s));
  }

  /** A text that is already collapsed is unchanged, so collapsing twice is collapsing once. */
  lemma {:induction false} CollapseOfCollapsed(s: string)
    requires NoDoubleWhitespace(s) && OnlySpaces(s)
    ensures CollapseWhitespace(s) == s
    decreases |s|
  {
    if s != [] {
      var t := s[1..];
      CollapsedTail(s);
      CollapseOfCollapsed(t);
      CollapseFirst(s);
      assert [s[0]] + t == s;
    }
  }

  /** Collapsing a non-empty text: its first character, or one space for a leading run, then the rest collapsed. */
  lemma CollapseFirst(s: string)
    requires s != []
    ensures IsJsWhitespace(s[0]) ==> CollapseWhitespace(s) == [' '] + CollapseWhitespace(TrimStart(s))
    ensures !IsJsWhitespace(s[0]) ==> CollapseWhitespace(s) == [s[0]] + CollapseWhitespace(s[1..])
  {
  }

  /** A collapsed text stays collapsed after its first character, and a leading space stands alone. */
  lemma CollapsedTail(s: string)
    requires s != [] && NoDoubleWhitespace(s) && OnlySpaces(s)
    ensures NoDoubleWhitespace(s[1..]) && OnlySpaces(s[1..])
    ensures IsJsWhitespace(s[0]) ==> s[0] == ' ' && TrimStart(s) == s[1..]
  {
    NoDoubleWhitespaceInfix(s, 1, |s|);
    assert forall i :: 0 <= i < |s| - 1 ==> s[1..][i] == s[i + 1];
    if IsJsWhitespace(s[0]) {
      assert |s| > 1 ==> !IsJsWhitespace(s[1]);
    }
  }

  /** Collapsing is idempotent. */
  lemma CollapseIdempotent(s: string)
    ensures CollapseWhitespace(CollapseWhitespace(s)) == CollapseWhitespace(s)
  {
    CollapseOfCollapsed(CollapseWhitespace(s));
  }

  lemma {:induction false} AllWhitespaceWhenTrimmedAway(s: string)
    requires TrimStart(s) == []
    ensures forall i :: 0 <= i < |s| ==> IsJsWhitespace(s[i])
    decreases |s|
  {
    if s != [] {
      assert IsJsWhitespace(s[0]);
      assert TrimStart(s[1..]) == [];
      AllWhitespaceWhenTrimmedAway(s[1..]);
      forall i | 1 <= i < |s| ensures IsJsWhitespace(s[i]) {
        assert s[i] == s[1..][i - 1];
      }
    }
  }

  lemma {:induction false} OnlySpacesInfix(s: string, a: nat, b: nat)
    requires a <= b <= |s| && OnlySpaces(s)
    ensures OnlySpaces(s[a..b])
  {
    assert forall i :: 0 <= i < b - a ==> s[a..b][i] == s[a + i];
  }

  /** The text after entity decoding, before whitespace is collapsed and trimmed. */
  function Decoded(html: string): string {
    DecodeEntities(StripTags(RemoveBlocks(RemoveBlocks(html, "<script", "</script>"), "<style", "</style>")))
  }

  /** Collapsing and trimming keep every non-whitespace character of the decoded text, in order. */
  lemma ExtractKeepsText(html: string)
    ensures NonWhitespace(ExtractTextFromHtml(html)) == NonWhitespace(Decoded(html))
  {
    var d := Decoded(html);
    CollapseKeepsText(d);
    NonWhitespaceOfTrim(CollapseWhitespace(d));
  }

  /**
   * `extractTextFromHtml`: scripts and styles out, tags to spaces, entities
   * decoded, whitespace collapsed, then trimmed. The result has no
   * whitespace at either end and no two whitespace characters in a row.
   */
  function ExtractTextFromHtml(html: string): (r: string)
    ensures NoEdgeWhitespace(r) && NoDoubleWhitespace(r) && OnlySpaces(r)
  {
    var collapsed := CollapseWhitespace(Decoded(html));
    var r := Trim(collapsed);
    var a: nat, b: nat :| a <= b <= |collapsed| && r == collapsed[a..b];
    NoDoubleWhitespaceInfix(collapsed, a, b);
    OnlySpacesInfix(collapsed, a, b);
    r
  }

  /** A text without `<` or `>` comes through the script, style and tag stripping unchanged. */
  lemma NoMarkupUntouched(s: string)
    requires '<' !in s && '>' !in s
    ensures StripTags(RemoveBlocks(RemoveBlocks(s, "<script", "</script>"), "<style", "</style>")) == s
  {
    NotFoundByFirstTwo(s, "<script");
    NotFoundByFirstTwo(s, "<style");
  }

  /** Tags are stripped before entities are decoded, so an escaped tag survives as text. */
  lemma EscapedTagSurvives(html: string)
    requires html == "&lt;b&gt;"
    ensures ExtractTextFromHtml(html) == "<b>"
  {
    NoMarkupUntouched(html);
    EscapedTagDecoded(html);
    var decoded := DecodeEntities(html);
    BoldTagPlain(decoded);
  }

  lemma EscapedTagDecoded(s: string)
    requires s == "&lt;b&gt;"
    ensures DecodeEntities(s) == "<b>"
  {
    NotFoundByFirstTwo(s, "&nbsp;");
    NotFoundByFirstTwo(s, "&amp;");
    var c := ReplaceAll(s, "&lt;", "<");
    EscapedTagLtStep(s);
    var d := ReplaceAll(c, "&gt;", ">");
    EscapedTagGtStep(c);
    BoldTagEntityFree(d);
  }

  lemma BoldTagEntityFree(s: string)
    requires s == "<b>"
    ensures ReplaceAll(ReplaceAll(s, "&quot;", "\""), "&#39;", "'") == s
  {
    EntityFree(s);
  }

  lemma BoldTagPlain(s: string)
    requires |s| == 3 && s[0] == '<' && s[1] == 'b' && s[2] == '>'
    ensures Trim(CollapseWhitespace(s)) == s
  {
    assert forall i :: 0 <= i < |s| ==> !IsJsWhitespace(s[i]) by {
      forall i | 0 <= i < |s|
        ensures !IsJsWhitespace(s[i])
      {
        assert i == 0 || i == 1 || i == 2;
      }
    }
    PlainTextUnchanged(s);
  }

  lemma LessThanPlain(s: string)
    requires |s| == 1 && s[0] == '<'
    ensures Trim(CollapseWhitespace(s)) == s
  {
    assert forall i :: 0 <= i < |s| ==> !IsJsWhitespace(s[i]) by {
      forall i | 0 <= i < |s| ensures !IsJsWhitespace(s[i]) { assert i == 0; }
    }
    PlainTextUnchanged(s);
  }

  /** A text without `&` decodes to itself from the `&quot;` step on. */
  lemma EntityFree(s: string)
    requires '&' !in s
    ensures ReplaceAll(ReplaceAll(s, "&quot;", "\""), "&#39;", "'") == s
  {
    NotFoundByFirstTwo(s, "&quot;");
    NotFoundByFirstTwo(s, "&#39;");
  }

  lemma EscapedTagLtStep(s: string)
    requires s == "&lt;b&gt;"
    ensures ReplaceAll(s, "&lt;", "<") == "<b&gt;"
  {
    var t := s[4..];
    assert FindIgnoreCase(s, "&lt;") == Some(0) by {
      MatchAtOfExact(s, "&lt;", 0);
      FirstMatchIs(s, "&lt;", 0);
    }
    assert FindIgnoreCase(t, "&lt;").None? by {
      assert t == "b&gt;";
      NotFoundByFirstTwo(t, "&lt;");
    }
    assert ReplaceAll(t, "&lt;", "<") == t;
    assert s[..0] + "<" + t == "<b&gt;";
  }

  lemma EscapedTagGtStep(t: string)
    requires t == "<b&gt;"
    ensures ReplaceAll(t, "&gt;", ">") == "<b>"
  {
    MatchAtOfExact(t, "&gt;", 2);
    assert !MatchAt(t, "&gt;", 0) by { assert Lower(t[0..4])[0] == '<'; }
    assert !MatchAt(t, "&gt;", 1) by { assert Lower(t[1..5])[0] == 'b'; }
    FirstMatchIs(t, "&gt;", 2);
    assert t[6..] == [];
  }

  /** A text without whitespace comes through collapsing and trimming unchanged. */
  lemma {:induction false} PlainTextUnchanged(s: string)
    requires forall i :: 0 <= i < |s| ==> !IsJsWhitespace(s[i])
    ensures Trim(CollapseWhitespace(s)) == s
  {
    CollapseWithoutWhitespace(s);
    TrimOfTrimmed(s);
  }

  lemma {:induction false} CollapseWithoutWhitespace(s: string)
    requires forall i :: 0 <= i < |s| ==> !IsJsWhitespace(s[i])
    ensures CollapseWhitespace(s) == s
    decreases |s|
  {
    if s != [] {
      assert forall i :: 0 <= i < |s[1..]| ==> s[1..][i] == s[i + 1];
      CollapseWithoutWhitespace(s[1..]);
    }
  }

  /** `&amp;` is decoded before `&lt;`, so a doubly escaped `<` comes out as `<`. */
  lemma AmpDecodedBeforeLt(html: string)
    requires html == "&amp;lt;"
    ensures ExtractTextFromHtml(html) == "<"
  {
    NoMarkupUntouched(html);
    DoubleEscapeDecoded(html);
    var decoded := DecodeEntities(html);
    LessThanPlain(decoded);
  }

  lemma DoubleEscapeDecoded(s: string)
    requires s == "&amp;lt;"
    ensures DecodeEntities(s) == "<"
  {
    NotFoundByFirstTwo(s, "&nbsp;");
    var b := ReplaceAll(s, "&amp;", "&");
    DoubleEscapeAmpStep(s);
    var c := ReplaceAll(b, "&lt;", "<");
    DoubleEscapeLtStep(b);
    NotFoundByFirstTwo(c, "&gt;");
    EntityFree(c);
  }

  lemma DoubleEscapeAmpStep(s: string)
    requires s == "&amp;lt;"
    ensures ReplaceAll(s, "&amp;", "&") == "&lt;"
  {
    MatchAtOfExact(s, "&amp;", 0);
    FirstMatchIs(s, "&amp;", 0);
    assert s[5..] == "lt;";
    NotFoundByFirstTwo(s[5..], "&amp;");
  }

  lemma DoubleEscapeLtStep(s: string)
    requires s == "&lt;"
    ensures ReplaceAll(s, "&lt;", "<") == "<"
  {
    MatchAtOfExact(s, "&lt;", 0);
    FirstMatchIs(s, "&lt;", 0);
    assert s[4..] == [];
  }

  // --------------------------------------------------------------- snippet

  /** The text fields of a feed item that `buildSnippet` reads; a missing field is `""`. */
  datatype FeedItem = FeedItem(
    contentSnippet: string,
    description: string,
    contentEncodedSnippet: string,
    contentEncoded: string,
    content: string)

  const MinChars := 300
  const MaxChars := 500
  const TargetChars := 400
  const Ellipsis := "\U{2026}"

  function Min(a: int, b: int): int {
    if a <= b then a else b
  }

  function Max(a: int, b: int): int {
    if a >= b then a else b
  }

  /** `candidates.find(Boolean) || ''`: the first non-empty string. */
  function FirstNonEmpty(candidates: seq<string>): (r: string)
    ensures r == [] <==> forall i :: 0 <= i < |candidates| ==> candidates[i] == []
    ensures r != [] ==>
      exists i :: 0 <= i < |candidates| && candidates[i] == r && forall j :: 0 <= j < i ==> candidates[j] == []
  {
    if candidates == [] then []
    else if candidates[0] != [] then candidates[0]
    else
      assert forall i :: 1 <= i < |candidates| ==> candidates[i] == candidates[1..][i - 1];
      FirstNonEmpty(candidates[1..])
  }

  /**
   * The source text: the first non-empty of the content snippet, the
   * description, the encoded snippet, the cleaned encoded content and the
   * content, or `""` when all are empty.
   */
  function SourceText(item: FeedItem): (r: string)
    ensures item.contentSnippet != [] ==> r == item.contentSnippet
    ensures item.contentSnippet == [] && item.description != [] ==> r == item.description
    ensures item.contentSnippet == [] && item.description == [] && item.contentEncodedSnippet != []
      ==> r == item.contentEncodedSnippet
    ensures item.contentSnippet == [] && item.description == [] && item.contentEncodedSnippet == []
      ==> r == (if item.contentEncoded != [] && ExtractTextFromHtml(item.contentEncoded) != []
                then ExtractTextFromHtml(item.contentEncoded) else item.content)
    ensures r == [] <==> (item.contentSnippet == [] && item.description == [] && item.contentEncodedSnippet == []
      && (item.contentEncoded == [] || ExtractTextFromHtml(item.contentEncoded) == []) && item.content == [])
  {
    if item.contentSnippet != [] then item.contentSnippet
    else if item.description != [] then item.description
    else if item.contentEncodedSnippet != [] then item.contentEncodedSnippet
    else if item.contentEncoded != [] && ExtractTextFromHtml(item.contentEncoded) != [] then ExtractTextFromHtml(item.contentEncoded)
    else item.content
  }

  /** The first 400 characters (`slice(0, min(MAX, max(TARGET, MIN)))`). */
  function Window(text: string): (w: string)
    ensures |w| == Min(|text|, TargetChars) && w == text[..|w|]
  {
    text[..Min(|text|, Min(MaxChars, Max(TargetChars, MinChars)))]
  }

  /** Where the kept text ends: after the last sentence end at 300 or later, else at the last space at 300 or later, else at the window's end. */
  function CutIndex(text: string): (c: nat)
    requires |text| > MinChars
    ensures MinChars <= c <= TargetChars && c <= |text|
  {
    var w := Window(text);
    var period := LastIndexOf(w, ". ");
    var space := LastIndexOf(w, " ");
    if period >= MinChars then period + 1 else if space >= MinChars then space else |w|
  }

  /** The preview of a cleaned text. */
  function SnippetOf(text: string): string {
    if |text| <= MinChars then text
    else
      var kept := text[..CutIndex(text)];
      kept + (if |text| > |kept| then Ellipsis else "")
  }

  /** `buildSnippet` as a function of the item. */
  function Snippet(item: FeedItem): string {
    SnippetOf(ExtractTextFromHtml(SourceText(item)))
  }

  /** `candidates.push(value)` when the field is present. */
  function PushIf(candidates: seq<string>, present: bool, value: string): seq<string> {
    if present then candidates + [value] else candidates
  }

  /** The non-empty text fields in priority order, the encoded content already cleaned. */
  function Candidates(item: FeedItem): seq<string> {
    var c1 := PushIf([], item.contentSnippet != "", item.contentSnippet);
    var c2 := PushIf(c1, item.description != "", item.description);
    var c3 := PushIf(c2, item.contentEncodedSnippet != "", item.contentEncodedSnippet);
    var c4 := PushIf(c3, item.contentEncoded != "", ExtractTextFromHtml(item.contentEncoded));
    PushIf(c4, item.content != "", item.content)
  }

  /** `buildSnippet`: collect the candidates, pick the first non-empty one, clean it and cut it. */
  method BuildSnippet(item: FeedItem) returns (snippet: string)
    ensures snippet == Snippet(item)
  {
    var candidates := CollectCandidates(item);
    var text := FirstNonEmpty(candidates);
    SourceTextIsFirstCandidate(item);
    text := ExtractTextFromHtml(text);
    snippet := CutText(text);
  }

  /** The `candidates.push` sequence of `buildSnippet`. */
  method CollectCandidates(item: FeedItem) returns (candidates: seq<string>)
    ensures candidates == Candidates(item)
  {
    candidates := [];
    if item.contentSnippet != "" { candidates := candidates + [item.contentSnippet]; }
    ghost var c1 := candidates;
    if item.description != "" { candidates := candidates + [item.description]; }
    assert candidates == PushIf(c1, item.description != "", item.description);
    ghost var c2 := candidates;
    if item.contentEncodedSnippet != "" { candidates := candidates + [item.contentEncodedSnippet]; }
    assert candidates == PushIf(c2, item.contentEncodedSnippet != "", item.contentEncodedSnippet);
    ghost var c3 := candidates;
    if item.contentEncoded != "" { candidates := candidates + [ExtractTextFromHtml(item.contentEncoded)]; }
    assert candidates == PushIf(c3, item.contentEncoded != "", ExtractTextFromHtml(item.contentEncoded));
    ghost var c4 := candidates;
    if item.content != "" { candidates := candidates + [item.content]; }
    assert candidates == PushIf(c4, item.content != "", item.content);
  }

  /** The cutting half of `buildSnippet`, on a cleaned text. */
  method CutText(text: string) returns (snippet: string)
    ensures snippet == SnippetOf(text)
  {
    if |text| <= MinChars {
      return text;
    }
    var slice := text[..Min(|text|, Min(MaxChars, Max(TargetChars, MinChars)))];
    assert slice == Window(text);
    var period := LastIndexOf(slice, ". ");
    var space := LastIndexOf(slice, " ");
    var cut := if period >= MinChars then period + 1 else if space >= MinChars then space else |slice|;
    assert cut == CutIndex(text);
    slice := slice[..cut];
    snippet := slice + (if |text| > |slice| then Ellipsis else "");
  }

  lemma SourceTextIsFirstCandidate(item: FeedItem)
    ensures FirstNonEmpty(Candidates(item)) == SourceText(item)
  {
    FirstOfPushes(item.contentSnippet, item.description, item.contentEncodedSnippet,
      item.contentEncoded != "", ExtractTextFromHtml(item.contentEncoded), item.content);
  }

  /** The first non-empty entry of the five pushes is the first non-empty field in push order. */
  lemma FirstOfPushes(a: string, b: string, c: string, present: bool, d: string, e: string)
    ensures FirstNonEmpty(PushIf(PushIf(PushIf(PushIf(PushIf([], a != "", a), b != "", b), c != "", c), present, d), e != "", e))
      == if a != [] then a else if b != [] then b else if c != [] then c else if present && d != [] then d else e
  {
    var s := PushIf(PushIf(PushIf(PushIf(PushIf([], a != "", a), b != "", b), c != "", c), present, d), e != "", e);
    var last := if e != "" then [e] else [];
    if a != [] {
      assert s[0] == a;
    } else if b != [] {
      assert s[0] == b;
    } else if c != [] {
      assert s[0] == c;
    } else if present {
      assert s == [d] + last;
      assert s[0] == d && s[1..] == last;
    } else {
      assert s == last;
    }
  }

  // ---------------------------------------------------------------- lemmas

  /** A text of at most 300 characters is returned unchanged, without an ellipsis. */
  lemma ShortTextUnchanged(text: string)
    requires |text| <= MinChars
    ensures SnippetOf(text) == text
  {
  }

  /**
   * A longer text keeps a prefix of 300 to 400 characters, followed by the
   * ellipsis exactly when something was cut off.
   */
  lemma LongTextKeepsPrefix(text: string)
    requires |text| > MinChars
    ensures var c := CutIndex(text);
      MinChars <= c <= TargetChars
      && SnippetOf(text) == text[..c] + (if c < |text| then Ellipsis else "")
      && (c < |text| ==> |SnippetOf(text)| == c + 1 && SnippetOf(text)[c] == '\U{2026}')
      && (c == |text| ==> SnippetOf(text) == text)
  {
  }

  /**
   * The cut rules: after the last `". "` of the window when it starts at 300
   * or later; otherwise at its last space when that is at 300 or later;
   * otherwise at the end of the window.
   */
  lemma CutRules(text: string)
    requires |text| > MinChars
    ensures var w := Window(text); var period := LastIndexOf(w, ". "); var space := LastIndexOf(w, " ");
      var c := CutIndex(text);
      (period >= MinChars ==> (c == period + 1 && text[c - 1] == '.' && text[c] == ' '
         && forall i :: period < i ==> !OccursAt(w, ". ", i)))
      && (period < MinChars && space >= MinChars ==> (c == space && text[c] == ' '
         && forall i :: space < i < |w| ==> w[i] != ' '))
      && (period < MinChars && space < MinChars ==> c == Min(|text|, TargetChars))
  {
    var w := Window(text);
    var period := LastIndexOf(w, ". ");
    var space := LastIndexOf(w, " ");
    if period >= MinChars {
      assert w[period..period + 2] == ". ";
      assert w[period] == w[period..period + 2][0] && w[period + 1] == w[period..period + 2][1];
      assert text[period] == w[period] && text[period + 1] == w[period + 1];
    }
    if period < MinChars && space >= MinChars {
      assert w[space..space + 1] == " ";
      assert text[space] == w[space] == w[space..space + 1][0];
      forall i | space < i < |w|
        ensures w[i] != ' '
      {
        assert !OccursAt(w, " ", i);
        assert w[i..i + 1] == [w[i]];
      }
    }
  }

  /**
   * On a cleaned text the kept part has no whitespace at either end, so the
   * ellipsis never follows a space.
   */
  lemma KeptPartTrimmed(text: string)
    requires NoEdgeWhitespace(text) && NoDoubleWhitespace(text) && OnlySpaces(text)
    requires |text| > MinChars
    ensures NoEdgeWhitespace(text[..CutIndex(text)])
  {
    var w := Window(text);
    var period := LastIndexOf(w, ". ");
    var space := LastIndexOf(w, " ");
    var c := CutIndex(text);
    CutRules(text);
    var kept := text[..c];
    assert kept[0] == text[0];
    assert kept[c - 1] == text[c - 1];
    if period < MinChars && space >= MinChars {
      SpaceCutAfterText(text, c);
    } else if period < MinChars && space < MinChars && c < |text| {
      assert w[c - 1..c] == [text[c - 1]];
      assert !OccursAt(w, " ", c - 1);
    }
  }

  /** In a collapsed text, a space is never preceded by whitespace. */
  lemma SpaceCutAfterText(text: string, c: nat)
    requires NoDoubleWhitespace(text) && 0 < c < |text| && text[c] == ' '
    ensures !IsJsWhitespace(text[c - 1])
  {
  }

  /** The preview of an item whose text fields are all empty is empty. */
  lemma EmptyItemEmptySnippet(item: FeedItem)
    requires item.contentSnippet == [] && item.description == [] && item.contentEncodedSnippet == []
      && item.contentEncoded == [] && item.content == []
    ensures Snippet(item) == []
  {
    assert SourceText(item) == [];
    assert RemoveBlocks([], "<script", "</script>") == [];
    assert RemoveBlocks([], "<style", "</style>") == [];
    assert DecodeEntities([]) == [];
  }
}
