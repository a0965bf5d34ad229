/**
 * `replaceTemplateTokens(templateText, variables)` of src/review/App.jsx: every `{{ KEY }}` token
 * (upper-case letters, digits and `_`, optionally padded with white space) is replaced by the
 * variable's value, or by "" when there is none.
 *
 * The pattern's character classes do not overlap (white space, key characters, `}`), so the
 * greedy match never backtracks and the replacement is a left-to-right scanner.
 */
module TemplateTokens {
  import opened Wrappers
  import opened Text

  /** `[A-Z0-9_]`. */
  predicate IsKeyChar(c: char) {
    ('A' <= c <= 'Z') || ('0' <= c <= '9') || c == '_'
  }

  /** The end of the white-space run starting at `i`. */
  function SpaceEnd(s: string, i: nat): (j: nat)
    requires i <= |s|
    ensures i <= j <= |s|
    ensures forall k :: i <= k < j ==> IsWhitespace(s[k])
    decreases |s| - i
  {
    if i == |s| || !IsWhitespace(s[i]) then i else SpaceEnd(s, i + 1)
  }

  /** The end of the key-character run starting at `i`. */
  function KeyEnd(s: string, i: nat): (j: nat)
    requires i <= |s|
    ensures i <= j <= |s|
    ensures forall k :: i <= k < j ==> IsKeyChar(s[k])
    decreases |s| - i
  {
    if i == |s| || !IsKeyChar(s[i]) then i else KeyEnd(s, i + 1)
  }

  /** A token at the start of a text: its key and the length of text it spans. */
  datatype Token = Token(key: string, length: nat)

  /** The token `s` starts with, if any. */
  function TokenAt(s: string): (r: Option<Token>)
    ensures r.Some? ==> 5 <= r.value.length <= |s| && r.value.key != []
    ensures r.Some? ==> s[0] == '{' && s[1] == '{' && s[r.value.length - 2] == '}' && s[r.value.length - 1] == '}'
    ensures r.Some? ==> forall c :: c in r.value.key ==> IsKeyChar(c)
    ensures r.Some? ==>
      exists a, b :: 2 <= a < b <= r.value.length - 2 && r.value.key == s[a..b]
        && AllWhitespace(s[2..a]) && AllWhitespace(s[b..r.value.length - 2])
  {
    if |s| < 2 || s[0] != '{' || s[1] != '{' then None
    else
      var a := SpaceEnd(s, 2);
      var b := KeyEnd(s, a);
      var c := SpaceEnd(s, b);
      if a == b || c + 2 > |s| || s[c] != '}' || s[c + 1] != '}' then None
      else
        assert forall k :: 0 <= k < b - a ==> s[a..b][k] == s[a + k];
        assert forall k :: 0 <= k < a - 2 ==> s[2..a][k] == s[2 + k];
        assert forall k :: 0 <= k < c - b ==> s[b..c][k] == s[b + k];
        Some(Token(s[a..b], c + 2))
  }

  /** `variables[key] ?? ""`. */
  function ValueOf(variables: map<string, string>, key: string): string {
    if key in variables then variables[key] else ""
  }

  /** The template with every token replaced. */
  function ReplaceTemplateTokens(templateText: string, variables: map<string, string>): string
    decreases |templateText|
  {
    if templateText == [] then []
    else
      match TokenAt(templateText)
      case Some(t) => ValueOf(variables, t.key) + ReplaceTemplateTokens(templateText[t.length..], variables)
      case None => [templateText[0]] + ReplaceTemplateTokens(templateText[1..], variables)
  }

  // ---------------------------------------------------------------------------
  // What the replacement does
  // ---------------------------------------------------------------------------

  predicate AllKeyChars(key: string) {
    forall k :: 0 <= k < |key| ==> IsKeyChar(key[k])
  }

  /** A text where `{{` never occurs. */
  predicate NoOpener(s: string) {
    forall k :: 0 <= k < |s| - 1 ==> !(s[k] == '{' && s[k + 1] == '{')
  }

  /** A character other than `{` is copied as it is. */
  lemma LiteralChar(c: char, rest: string, variables: map<string, string>)
    requires c != '{'
    ensures ReplaceTemplateTokens([c] + rest, variables) == [c] + ReplaceTemplateTokens(rest, variables)
  {
    assert ([c] + rest)[1..] == rest;
  }

  /** A text without `{{` comes back unchanged. */
  lemma {:induction false} NoTokensUnchanged(s: string, variables: map<string, string>)
    requires NoOpener(s)
    ensures ReplaceTemplateTokens(s, variables) == s
    decreases |s|
  {
    if s != [] {
      assert TokenAt(s).None?;
      var rest := s[1..];
      assert NoOpener(rest) by {
        forall k | 0 <= k < |rest| - 1
          ensures !(rest[k] == '{' && rest[k + 1] == '{')
        {
          assert rest[k] == s[k + 1] && rest[k + 1] == s[k + 2];
        }
      }
      NoTokensUnchanged(rest, variables);
      assert s == [s[0]] + rest;
    }
  }

  lemma {:induction false} SpaceEndRun(s: string, i: nat, j: nat)
    requires i <= j <= |s|
    requires forall k :: i <= k < j ==> IsWhitespace(s[k])
    requires j == |s| || !IsWhitespace(s[j])
    ensures SpaceEnd(s, i) == j
    decreases j - i
  {
    if i < j {
      SpaceEndRun(s, i + 1, j);
    }
  }

  lemma {:induction false} KeyEndRun(s: string, i: nat, j: nat)
    requires i <= j <= |s|
    requires forall k :: i <= k < j ==> IsKeyChar(s[k])
    requires j == |s| || !IsKeyChar(s[j])
    ensures KeyEnd(s, i) == j
    decreases j - i
  {
    if i < j {
      KeyEndRun(s, i + 1, j);
    }
  }

  /**
   * A well-formed token, with any white space inside its braces, becomes the variable's value
   * ("" for a key without one) and the scan goes on right after it.
   */
  lemma ReplaceToken(before: string, key: string, after: string, rest: string, variables: map<string, string>)
    requires key != [] && AllKeyChars(key)
    requires AllWhitespace(before) && AllWhitespace(after)
    ensures ReplaceTemplateTokens("{{" + before + key + after + "}}" + rest, variables) ==
      ValueOf(variables, key) + ReplaceTemplateTokens(rest, variables)
  {
    var s := "{{" + before + key + after + "}}" + rest;
    var a := 2 + |before|;
    var b := a + |key|;
    var c := b + |after|;
    assert forall k :: 2 <= k < a ==> s[k] == before[k - 2];
    assert forall k :: a <= k < b ==> s[k] == key[k - a];
    assert forall k :: b <= k < c ==> s[k] == after[k - b];
    assert s[c] == '}' && s[c + 1] == '}';
    assert !IsWhitespace(s[a]);
    if after == [] {
      assert !IsKeyChar(s[b]);
    } else {
      assert !IsKeyChar(after[0]) && s[b] == after[0];
    }
    TokenSpans(s, a, b, c);
    assert s[a..b] == key;
    assert s[c + 2..] == rest;
  }

  /** White space, a run of key characters, white space and `}}` after `{{` make the token at the start of `s`. */
  lemma TokenSpans(s: string, a: nat, b: nat, c: nat)
    requires 2 <= a < b <= c && c + 2 <= |s| && s[0] == '{' && s[1] == '{'
    requires (forall k :: 2 <= k < a ==> IsWhitespace(s[k])) && !IsWhitespace(s[a])
    requires (forall k :: a <= k < b ==> IsKeyChar(s[k])) && !IsKeyChar(s[b])
    requires (forall k :: b <= k < c ==> IsWhitespace(s[k])) && s[c] == '}' && s[c + 1] == '}'
    ensures TokenAt(s) == Some(Token(s[a..b], c + 2))
  {
    SpaceEndRun(s, 2, a);
    KeyEndRun(s, a, b);
    SpaceEndRun(s, b, c);
  }

  /** A key without a variable is replaced by the empty string. */
  lemma UnknownKeyIsEmpty(key: string, variables: map<string, string>)
    requires key != [] && AllKeyChars(key) && key !in variables
    ensures ReplaceTemplateTokens("{{" + key + "}}", variables) == ""
  {
    ReplaceToken("", key, "", "", variables);
    assert "{{" + "" + key + "" + "}}" + "" == "{{" + key + "}}";
  }
}
