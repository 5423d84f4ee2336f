/**
 * The regular expressions the table-driven lexers compile, recognised by hand: a keyword alternation
 * between two `\b`, `[a-zA-Z_]\w*`, a one-character class, `\d+`, `\d+\.\d+` and `\s+`, with
 * `regex.match(text, i)` and `regex.finditer(text)` over them.
 */
module Patterns {
  import opened Common
  import opened Chars

  datatype Pattern =
    | Keyword(words: set<string>)  // \b(?:w1|w2|...)\b
    | Identifier                   // [a-zA-Z_]\w*
    | Class(members: string)       // [...]
    | Integer                      // \d+
    | Float                        // \d+\.\d+
    | Space                        // \s+

  /** A non-empty run of word characters, as every keyword is. */
  predicate WordText(w: string)
  {
    w != [] && forall k :: 0 <= k < |w| ==> IsWord(w[k])
  }

  /** A keyword alternation does not list the empty word. */
  predicate WellFormed(p: Pattern)
  {
    p.Keyword? ==> "" !in p.words
  }

  /** `\b` at `i`: exactly one of the characters on either side is a word character. */
  predicate Boundary(s: string, i: nat)
    requires i <= |s|
  {
    (i > 0 && IsWord(s[i - 1])) != (i < |s| && IsWord(s[i]))
  }

  /** The end of the maximal run of `\s` characters that starts at `i`. */
  function SpaceEnd(s: string, i: nat): (e: nat)
    requires i <= |s|
    ensures i <= e <= |s|
    ensures forall k :: i <= k < e ==> IsRegexSpace(s[k])
    decreases |s| - i
  {
    if i < |s| && IsRegexSpace(s[i]) then SpaceEnd(s, i + 1) else i
  }

  /**
   * `regex.match(s, i)`: where a match of `p` at `i` ends, if there is one. The keyword alternation
   * is the whole word at `i` when that word is listed and `i` is a word boundary (KeywordRegex).
   */
  function Match(p: Pattern, s: string, i: nat): (r: Option<nat>)
    requires i < |s| && WellFormed(p)
    ensures r.Some? ==> i < r.value <= |s|
  {
    match p
    case Keyword(words) =>
      var e := WordEnd(s, i);
      if Boundary(s, i) && s[i..e] in words then
        assert s[i..e] != [];
        Some(e)
      else None
    case Identifier => if IsAlpha(s[i]) || s[i] == '_' then Some(WordEnd(s, i)) else None
    case Class(members) => if s[i] in members then Some(i + 1) else None
    case Integer => if IsDigit(s[i]) then Some(DigitsEnd(s, i)) else None
    case Float =>
      if IsDigit(s[i]) then
        var d := DigitsEnd(s, i);
        if d + 1 < |s| && s[d] == '.' && IsDigit(s[d + 1]) then Some(DigitsEnd(s, d + 1)) else None
      else None
    case Space => if IsRegexSpace(s[i]) then Some(SpaceEnd(s, i)) else None
  }

  /** A word run goes on through a stretch of word characters. */
  lemma {:induction false} WordEndSkip(s: string, i: nat, n: nat)
    requires i <= n <= |s|
    requires forall k :: i <= k < n ==> IsWord(s[k])
    ensures WordEnd(s, i) == WordEnd(s, n)
    decreases n - i
  {
    if i < n {
      WordEndSkip(s, i + 1, n);
    }
  }

  /**
   * The alternation really is `\b(?:w1|w2|...)\b`: where a listed word `w` stands at `i`, the pattern
   * matches it exactly when there is a word boundary on both sides of it.
   */
  lemma KeywordRegex(words: set<string>, s: string, i: nat, w: string)
    requires "" !in words && w in words && WordText(w) && i + |w| <= |s| && s[i..i + |w|] == w
    ensures Match(Keyword(words), s, i) == Some(i + |w|) <==> Boundary(s, i) && Boundary(s, i + |w|)
  {
    var n := i + |w|;
    assert forall k :: i <= k < n ==> IsWord(s[k]) by {
      forall k | i <= k < n
        ensures IsWord(s[k])
      {
        assert s[k] == w[k - i];
      }
    }
    WordEndSkip(s, i, n);
  }

  /** `[m.group(0) for m in regex.finditer(s)]` from `j` on: the texts of the successive non-overlapping matches. */
  function FindAll(p: Pattern, s: string, j: nat): (r: seq<string>)
    requires WellFormed(p)
    ensures forall k :: 0 <= k < |r| ==> r[k] != []
    decreases |s| - j
  {
    if j >= |s| then []
    else
      match Match(p, s, j)
      case Some(e) => [s[j..e]] + FindAll(p, s, e)
      case None => FindAll(p, s, j + 1)
  }

  /** A stretch where the pattern matches nowhere adds nothing: `finditer` skips it. */
  lemma {:induction false} FindAllSkips(p: Pattern, s: string, j: nat, n: nat)
    requires WellFormed(p) && j <= n <= |s|
    requires forall k :: j <= k < n ==> Match(p, s, k).None?
    ensures FindAll(p, s, j) == FindAll(p, s, n)
    decreases n - j
  {
    if j < n {
      FindAllSkips(p, s, j + 1, n);
    }
  }
}
