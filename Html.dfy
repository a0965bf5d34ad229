/**
 * HTML text helpers of the review page: `escapeHtml` (the same code in
 * src/review/App.jsx and src/review/editorjs-utils.js) and the regular
 * expression fallback of `stripHtml`.
 */
module Html {
  import opened Text
  import opened Wrappers

  /** `s.replaceAll(c, rep)` for a one-character pattern. */
  function ReplaceAll(s: string, c: char, rep: string): string {
    if s == [] then []
    else (if s[0] == c then rep else [s[0]]) + ReplaceAll(s[1..], c, rep)
  }

  /** The source's escapeHtml: five `replaceAll` passes, `&` first. */
  function EscapeHtml(s: string): string {
    var amp := ReplaceAll(s, '&', "&amp;");
    var lt := ReplaceAll(amp, '<', "&lt;");
    var gt := ReplaceAll(lt, '>', "&gt;");
    var quot := ReplaceAll(gt, '"', "&quot;");
    ReplaceAll(quot, '\'', "&#39;")
  }

  /** The entity that one character becomes. */
  function EscapeChar(c: char): string {
    if c == '&' then "&amp;"
    else if c == '<' then "&lt;"
    else if c == '>' then "&gt;"
    else if c == '"' then "&quot;"
    else if c == '\'' then "&#39;"
    else [c]
  }

  /** Character-by-character escaping, the reference the pass chain is proved against. */
  function EscapeEach(s: string): string {
    if s == [] then [] else EscapeChar(s[0]) + EscapeEach(s[1..])
  }

  predicate NoRawMarkup(t: string) {
    forall i :: 0 <= i < |t| ==> t[i] != '<' && t[i] != '>' && t[i] != '"' && t[i] != '\''
  }

  /** One of the five entities `escapeHtml` writes starts at position `i` of `t`. */
  predicate EntityAt(t: string, i: nat)
    requires i <= |t|
  {
    var u := t[i..];
    StartsWith(u, "&amp;") || StartsWith(u, "&lt;") || StartsWith(u, "&gt;") || StartsWith(u, "&quot;")
    || StartsWith(u, "&#39;")
  }

  /** Every `&` of `t` begins an entity: none is a bare ampersand. */
  predicate AmpsBeginEntities(t: string) {
    forall i :: 0 <= i < |t| && t[i] == '&' ==> EntityAt(t, i)
  }

  lemma {:induction false} ReplaceAllConcat(a: string, b: string, c: char, rep: string)
    ensures ReplaceAll(a + b, c, rep) == ReplaceAll(a, c, rep) + ReplaceAll(b, c, rep)
  {
    if a != [] {
      assert (a + b)[0] == a[0] && (a + b)[1..] == a[1..] + b;
      ReplaceAllConcat(a[1..], b, c, rep);
    } else {
      assert a + b == b;
    }
  }

  lemma {:induction false} ReplaceAllAbsent(s: string, c: char, rep: string)
    requires forall i :: 0 <= i < |s| ==> s[i] != c
    ensures ReplaceAll(s, c, rep) == s
  {
    if s != [] {
      ReplaceAllAbsent(s[1..], c, rep);
    }
  }

  lemma EscapeHtmlConcat(a: string, b: string)
    ensures EscapeHtml(a + b) == EscapeHtml(a) + EscapeHtml(b)
  {
    var amp := ReplaceAll(a, '&', "&amp;");
    var ampB := ReplaceAll(b, '&', "&amp;");
    ReplaceAllConcat(a, b, '&', "&amp;");
    var lt := ReplaceAll(amp, '<', "&lt;");
    var ltB := ReplaceAll(ampB, '<', "&lt;");
    ReplaceAllConcat(amp, ampB, '<', "&lt;");
    var gt := ReplaceAll(lt, '>', "&gt;");
    var gtB := ReplaceAll(ltB, '>', "&gt;");
    ReplaceAllConcat(lt, ltB, '>', "&gt;");
    var quot := ReplaceAll(gt, '"', "&quot;");
    var quotB := ReplaceAll(gtB, '"', "&quot;");
    ReplaceAllConcat(gt, gtB, '"', "&quot;");
    ReplaceAllConcat(quot, quotB, '\'', "&#39;");
  }

  /** No character is replaced twice: every pass leaves what the earlier passes wrote alone. */
  lemma EscapeHtmlChar(c: char)
    ensures EscapeHtml([c]) == EscapeChar(c)
  {
    var e := EscapeChar(c);
    assert ReplaceAll([c], '&', "&amp;") == if c == '&' then "&amp;" else [c] by {
      assert [c][1..] == [];
    }
    if c == '&' {
      ReplaceAllAbsent("&amp;", '<', "&lt;");
      ReplaceAllAbsent("&amp;", '>', "&gt;");
      ReplaceAllAbsent("&amp;", '"', "&quot;");
      ReplaceAllAbsent("&amp;", '\'', "&#39;");
    } else {
      assert ReplaceAll([c], '<', "&lt;") == if c == '<' then "&lt;" else [c] by {
        assert [c][1..] == [];
      }
      if c == '<' {
        ReplaceAllAbsent("&lt;", '>', "&gt;");
        ReplaceAllAbsent("&lt;", '"', "&quot;");
        ReplaceAllAbsent("&lt;", '\'', "&#39;");
      } else {
        assert ReplaceAll([c], '>', "&gt;") == if c == '>' then "&gt;" else [c] by {
          assert [c][1..] == [];
        }
        if c == '>' {
          ReplaceAllAbsent("&gt;", '"', "&quot;");
          ReplaceAllAbsent("&gt;", '\'', "&#39;");
        } else {
          assert ReplaceAll([c], '"', "&quot;") == if c == '"' then "&quot;" else [c] by {
            assert [c][1..] == [];
          }
          if c == '"' {
            ReplaceAllAbsent("&quot;", '\'', "&#39;");
          } else {
            assert ReplaceAll([c], '\'', "&#39;") == if c == '\'' then "&#39;" else [c] by {
              assert [c][1..] == [];
            }
          }
        }
      }
    }
  }

  /** Running the five passes in the source's order escapes each character exactly once. */
  lemma {:induction false} EscapeHtmlIsPerCharacter(s: string)
    ensures EscapeHtml(s) == EscapeEach(s)
  {
    if s != [] {
      assert s == [s[0]] + s[1..];
      EscapeHtmlConcat([s[0]], s[1..]);
      EscapeHtmlChar(s[0]);
      EscapeHtmlIsPerCharacter(s[1..]);
    }
  }

  lemma {:induction false} EscapeEachNoRawMarkup(s: string)
    ensures NoRawMarkup(EscapeEach(s))
  {
    if s != [] {
      EscapeEachNoRawMarkup(s[1..]);
      var e := EscapeChar(s[0]);
      assert NoRawMarkup(e);
      var t := EscapeEach(s);
      assert t == e + EscapeEach(s[1..]);
      forall i | 0 <= i < |t| ensures t[i] != '<' && t[i] != '>' && t[i] != '"' && t[i] != '\'' {
        if i >= |e| { assert t[i] == EscapeEach(s[1..])[i - |e|]; }
      }
    }
  }

  /** An entity at the front of `a` is still there when more text follows. */
  lemma StartsWithConcat(a: string, b: string, p: string)
    requires StartsWith(a, p)
    ensures StartsWith(a + b, p)
  {
    assert (a + b)[..|p|] == a[..|p|];
  }

  lemma {:induction false} EscapeEachAmpsBeginEntities(s: string)
    ensures AmpsBeginEntities(EscapeEach(s))
  {
    if s != [] {
      EscapeEachAmpsBeginEntities(s[1..]);
      var e := EscapeChar(s[0]);
      var rest := EscapeEach(s[1..]);
      var t := e + rest;
      assert t == EscapeEach(s);
      forall i | 0 <= i < |t| && t[i] == '&' ensures EntityAt(t, i) {
        if i < |e| {
          assert e[i] == '&';
          assert i == 0 && (s[0] == '&' || s[0] == '<' || s[0] == '>' || s[0] == '"' || s[0] == '\'');
          assert t[0..] == t;
          assert StartsWith(e, e);
          StartsWithConcat(e, rest, e);
        } else {
          assert t[i] == rest[i - |e|];
          assert t[i..] == rest[i - |e|..];
        }
      }
    }
  }

  /** The escaped text holds no raw `<`, `>`, `"` or `'`, and every `&` in it begins an entity. */
  lemma EscapeHtmlNoRawMarkup(s: string)
    ensures NoRawMarkup(EscapeHtml(s))
    ensures AmpsBeginEntities(EscapeHtml(s))
  {
    EscapeHtmlIsPerCharacter(s);
    EscapeEachNoRawMarkup(s);
    EscapeEachAmpsBeginEntities(s);
  }

  /** Decoding of the five entities, the inverse used to state that escaping loses nothing. */
  function Unescape(t: string): string
    decreases |t|
  {
    if t == [] then []
    else if StartsWith(t, "&amp;") then "&" + Unescape(t[5..])
    else if StartsWith(t, "&lt;") then "<" + Unescape(t[4..])
    else if StartsWith(t, "&gt;") then ">" + Unescape(t[4..])
    else if StartsWith(t, "&quot;") then "\"" + Unescape(t[6..])
    else if StartsWith(t, "&#39;") then "'" + Unescape(t[5..])
    else [t[0]] + Unescape(t[1..])
  }

  lemma UnescapeChar(c: char, rest: string)
    ensures Unescape(EscapeChar(c) + rest) == [c] + Unescape(rest)
  {
    var t := EscapeChar(c) + rest;
    assert t[..|EscapeChar(c)|] == EscapeChar(c);
    assert t[|EscapeChar(c)|..] == rest;
    if c != '&' && c != '<' && c != '>' && c != '"' && c != '\'' {
      assert t[0] == c;
      assert !StartsWith(t, "&amp;") && !StartsWith(t, "&lt;") && !StartsWith(t, "&gt;");
      assert !StartsWith(t, "&quot;") && !StartsWith(t, "&#39;");
    } else if c == '<' {
      assert !StartsWith(t, "&amp;") by { assert t[1] == 'l'; }
    } else if c == '>' {
      assert !StartsWith(t, "&amp;") by { assert t[1] == 'g'; }
      assert !StartsWith(t, "&lt;") by { assert t[1] == 'g'; }
    } else if c == '"' {
      assert !StartsWith(t, "&amp;") by { assert t[1] == 'q'; }
      assert !StartsWith(t, "&lt;") by { assert t[1] == 'q'; }
      assert !StartsWith(t, "&gt;") by { assert t[1] == 'q'; }
    } else if c == '\'' {
      assert !StartsWith(t, "&amp;") by { assert t[1] == '#'; }
      assert !StartsWith(t, "&lt;") by { assert t[1] == '#'; }
      assert !StartsWith(t, "&gt;") by { assert t[1] == '#'; }
      assert !StartsWith(t, "&quot;") by { assert t[1] == '#'; }
    }
  }

  lemma {:induction false} UnescapeEscapeEach(s: string)
    ensures Unescape(EscapeEach(s)) == s
  {
    if s != [] {
      UnescapeChar(s[0], EscapeEach(s[1..]));
      UnescapeEscapeEach(s[1..]);
    }
  }

  /** Escaping is lossless: decoding the five entities gives the original text back. */
  lemma EscapeHtmlRoundTrip(s: string)
    ensures Unescape(EscapeHtml(s)) == s
  {
    EscapeHtmlIsPerCharacter(s);
    UnescapeEscapeEach(s);
  }

  /** Index of the first `c` in `s` at or after `from`, `|s|` when there is none. */
  function IndexOfFrom(s: string, c: char, from: nat): (i: nat)
    requires from <= |s|
    ensures from <= i <= |s|
    ensures i < |s| ==> s[i] == c
    ensures forall k :: from <= k < i ==> s[k] != c
    decreases |s| - from
  {
    if from == |s| then |s| else if s[from] == c then from else IndexOfFrom(s, c, from + 1)
  }

  /** Where a match of `/<[^>]+>/` that starts at the front of `s` ends (exclusive). */
  function TagEnd(s: string): Option<nat>
  {
    if |s| >= 2 && s[0] == '<' && s[1] != '>' then
      var j := IndexOfFrom(s, '>', 2);
      if j < |s| then Some(j + 1) else None
    else None
  }

  /** `s.replace(/<[^>]+>/g, "")`: leftmost matches, left to right, none overlapping. */
  function RemoveTags(s: string): string
    decreases |s|
  {
    if s == [] then []
    else match TagEnd(s)
      case Some(e) => RemoveTags(s[e..])
      case None => [s[0]] + RemoveTags(s[1..])
  }

  /** `s.replace(/\s+/g, " ")`. */
  function CollapseWhitespace(s: string): string
    decreases |s|
  {
    if s == [] then []
    else if IsWhitespace(s[0]) then
      TrimStartShorter(s);
      " " + CollapseWhitespace(TrimStart(s))
    else [s[0]] + CollapseWhitespace(s[1..])
  }

  /** The fallback of stripHtml used when no DOMParser is available. */
  function StripHtml(s: string): string {
    Trim(CollapseWhitespace(RemoveTags(s)))
  }

  /** A match of the tag pattern starts at position `i`. */
  predicate TagStartsAt(t: string, i: int)
    requires 0 <= i < |t|
  {
    t[i] == '<' && i + 1 < |t| && t[i + 1] != '>' && '>' in t[i + 2..]
  }

  predicate NoTag(t: string) {
    forall i :: 0 <= i < |t| ==> !TagStartsAt(t, i)
  }

  /** Runs of white space are single spaces. */
  predicate SingleSpaced(t: string) {
    forall i :: 0 <= i < |t| ==> SpacedAt(t, i)
  }

  /** White space at position `i` is a single space. */
  predicate SpacedAt(t: string, i: int)
    requires 0 <= i < |t|
  {
    IsWhitespace(t[i]) ==> t[i] == ' ' && (i + 1 < |t| ==> !IsWhitespace(t[i + 1]))
  }

  lemma TagInSlice(t: string, i: nat, j: nat, k: nat)
    requires i <= j <= |t| && k < j - i
    ensures TagStartsAt(t[i..j], k) ==> TagStartsAt(t, i + k)
  {
    var u := t[i..j];
    if k + 2 <= |u| && '>' in u[k + 2..] {
      assert u[k + 2..] == t[i + k + 2..j];
      var m :| 0 <= m < |u[k + 2..]| && u[k + 2..][m] == '>';
      assert t[i + k + 2..][m] == '>';
    }
  }

  lemma NoTagSlice(t: string, i: nat, j: nat)
    requires NoTag(t) && i <= j <= |t|
    ensures NoTag(t[i..j])
  {
    forall k | 0 <= k < j - i ensures !TagStartsAt(t[i..j], k) {
      TagInSlice(t, i, j, k);
    }
  }

  /** A tag at position `i > 0` of `[c] + t` is a tag at `i - 1` of `t`. */
  lemma TagAfterCons(c: char, t: string, i: nat)
    requires 1 <= i < |t| + 1
    ensures TagStartsAt([c] + t, i) <==> TagStartsAt(t, i - 1)
  {
    var r := [c] + t;
    if i + 2 <= |r| {
      assert r[i + 2..] == t[i + 1..];
    }
  }

  lemma SingleSpacedSlice(t: string, i: nat, j: nat)
    requires SingleSpaced(t) && i <= j <= |t|
    ensures SingleSpaced(t[i..j])
  {
    var u := t[i..j];
    forall k | 0 <= k < |u| ensures SpacedAt(u, k) {
      assert SpacedAt(t, i + k);
    }
  }

  lemma {:induction false} RemoveTagsKeepsNoNewChars(s: string, c: char)
    ensures c in RemoveTags(s) ==> c in s
    decreases |s|
  {
    if s != [] && c in RemoveTags(s) {
    match TagEnd(s)
    case Some(e) =>
      RemoveTagsKeepsNoNewChars(s[e..], c);
      var k :| 0 <= k < |s[e..]| && s[e..][k] == c;
      assert s[e + k] == c;
    case None =>
      if c != s[0] {
        RemoveTagsKeepsNoNewChars(s[1..], c);
        var k :| 0 <= k < |s[1..]| && s[1..][k] == c;
        assert s[1 + k] == c;
      }
    }
  }

  /** After the global replace no tag is left: removal never joins text into a new tag. */
  lemma {:induction false} RemoveTagsNoTag(s: string)
    ensures NoTag(RemoveTags(s))
    decreases |s|
  {
    if s != [] {
      match TagEnd(s)
      case Some(e) =>
        RemoveTagsNoTag(s[e..]);
      case None =>
        var rest := RemoveTags(s[1..]);
        RemoveTagsNoTag(s[1..]);
        var r := [s[0]] + rest;
        forall i | 0 <= i < |r| ensures !TagStartsAt(r, i) {
          if i > 0 {
            TagAfterCons(s[0], rest, i);
          } else if s[0] == '<' && |s| >= 2 {
            if s[1] == '>' {
              assert TagEnd(s[1..]) == None;
              assert r[1] == '>';
            } else {
              assert IndexOfFrom(s, '>', 2) == |s|;
              assert '>' !in s[1..];
              RemoveTagsKeepsNoNewChars(s[1..], '>');
              assert r[2..] == rest[1..];
              assert forall x :: x in rest[1..] ==> x in rest;
            }
          }
        }
    }
  }

  lemma CollapseHead(s: string)
    requires s != [] && !IsWhitespace(s[0])
    ensures CollapseWhitespace(s) != [] && CollapseWhitespace(s)[0] == s[0]
  {
  }

  lemma {:induction false} CollapseKeepsNoNewChars(s: string, c: char)
    requires !IsWhitespace(c)
    ensures c in CollapseWhitespace(s) ==> c in s
    decreases |s|
  {
    if s != [] {
      if IsWhitespace(s[0]) {
        var rest := TrimStart(s);
        TrimStartShorter(s);
        var r := CollapseWhitespace(rest);
        assert CollapseWhitespace(s) == " " + r;
        CollapseKeepsNoNewChars(rest, c);
        TrimStartSuffix(s);
      } else {
        var r := CollapseWhitespace(s[1..]);
        assert CollapseWhitespace(s) == [s[0]] + r;
        CollapseKeepsNoNewChars(s[1..], c);
        assert s == [s[0]] + s[1..];
      }
    }
  }

  lemma {:induction false} CollapseSingleSpaced(s: string)
    ensures SingleSpaced(CollapseWhitespace(s))
    decreases |s|
  {
    if s != [] {
      if IsWhitespace(s[0]) {
        var rest := TrimStart(s);
        TrimStartShorter(s);
        CollapseSingleSpaced(rest);
        if rest != [] { CollapseHead(rest); }
        var r := " " + CollapseWhitespace(rest);
        forall i | 0 <= i < |r| ensures SpacedAt(r, i) {
          if i > 0 { assert SpacedAt(CollapseWhitespace(rest), i - 1); }
        }
      } else {
        CollapseSingleSpaced(s[1..]);
        var r := [s[0]] + CollapseWhitespace(s[1..]);
        forall i | 0 <= i < |r| ensures SpacedAt(r, i) {
          if i > 0 { assert SpacedAt(CollapseWhitespace(s[1..]), i - 1); }
        }
      }
    }
  }

  lemma NoTagSuffix(s: string, k: nat)
    requires NoTag(s) && k <= |s|
    ensures NoTag(s[k..])
  {
    NoTagSlice(s, k, |s|);
    assert s[k..|s|] == s[k..];
  }

  lemma CollapseNoTagWhitespaceStep(s: string)
    requires s != [] && IsWhitespace(s[0])
    requires NoTag(CollapseWhitespace(TrimStart(s)))
    ensures NoTag(CollapseWhitespace(s))
  {
    var rest := CollapseWhitespace(TrimStart(s));
    var r := " " + rest;
    assert CollapseWhitespace(s) == r;
    forall i | 0 <= i < |r| ensures !TagStartsAt(r, i) {
      if i > 0 {
        TagAfterCons(' ', rest, i);
      }
    }
  }

  lemma CollapseCons(s: string)
    requires s != [] && !IsWhitespace(s[0])
    ensures CollapseWhitespace(s) == [s[0]] + CollapseWhitespace(s[1..])
  {
  }

  lemma TagAtFrontOfCons(c: char, u: string)
    ensures TagStartsAt([c] + u, 0) ==> u != [] && u[0] != '>' && '>' in u
  {
    var r := [c] + u;
    if |r| >= 2 {
      assert r[2..] == u[1..];
    }
  }

  /** A non-white first character that starts no tag in `s` starts none after collapsing. */
  lemma CollapseNoTagAtFront(s: string)
    requires s != [] && !IsWhitespace(s[0]) && !TagStartsAt(s, 0)
    ensures !TagStartsAt(CollapseWhitespace(s), 0)
  {
    var t := s[1..];
    var u := CollapseWhitespace(t);
    CollapseCons(s);
    TagAtFrontOfCons(s[0], u);
    if t != [] && t[0] == '>' {
      CollapseHead(t);
    } else if t != [] && s[0] == '<' {
      assert t == [t[0]] + s[2..];
      CollapseKeepsNoNewChars(t, '>');
    }
  }

  lemma CollapseNoTagCharStep(s: string)
    requires s != [] && !IsWhitespace(s[0]) && !TagStartsAt(s, 0)
    requires NoTag(CollapseWhitespace(s[1..]))
    ensures NoTag(CollapseWhitespace(s))
  {
    var rest := CollapseWhitespace(s[1..]);
    CollapseCons(s);
    CollapseNoTagAtFront(s);
    var r := [s[0]] + rest;
    forall i | 0 < i < |r| ensures !TagStartsAt(r, i) {
      TagAfterCons(s[0], rest, i);
    }
  }

  /** Collapsing white space cannot create a tag either. */
  lemma {:induction false} CollapseNoTag(s: string)
    requires NoTag(s)
    ensures NoTag(CollapseWhitespace(s))
    decreases |s|
  {
    if s != [] {
      if IsWhitespace(s[0]) {
        var rest := TrimStart(s);
        TrimStartShorter(s);
        TrimStartSuffix(s);
        NoTagSuffix(s, |s| - |rest|);
        CollapseNoTag(rest);
        CollapseNoTagWhitespaceStep(s);
      } else {
        NoTagSuffix(s, 1);
        CollapseNoTag(s[1..]);
        CollapseNoTagCharStep(s);
      }
    }
  }

  /** stripHtml's fallback leaves no tag, single spaces only, and nothing to trim. */
  lemma StripHtmlClean(s: string)
    ensures NoTag(StripHtml(s)) && SingleSpaced(StripHtml(s)) && IsTrimmed(StripHtml(s))
  {
    var c := CollapseWhitespace(RemoveTags(s));
    RemoveTagsNoTag(s);
    CollapseNoTag(RemoveTags(s));
    CollapseSingleSpaced(RemoveTags(s));
    var i, j :| 0 <= i <= j <= |c| && StripHtml(s) == c[i..j] && AllWhitespace(c[..i]) && AllWhitespace(c[j..]);
    NoTagSlice(c, i, j);
    SingleSpacedSlice(c, i, j);
  }
}
