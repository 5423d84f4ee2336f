/**
 * ASCII character classes used by the lexers. Python's `str.isdigit/isalpha/isalnum/isspace`,
 * C's `isdigit/isalpha/isalnum/isspace` and the regular-expression classes `\d`, `\w`, `\s`
 * are all restricted to ASCII here.
 */
module Chars {

  predicate IsDigit(c: char) { '0' <= c <= '9' }

  predicate IsAlpha(c: char) { 'a' <= c <= 'z' || 'A' <= c <= 'Z' }

  predicate IsAlnum(c: char) { IsDigit(c) || IsAlpha(c) }

  /** Python's `str.isspace` on ASCII: tab, LF, VT, FF, CR, the separators 0x1C-0x1F and space. */
  predicate PySpace(c: char) { '\t' <= c <= '\r' || '\U{1C}' <= c <= ' ' }

  /** C's `isspace` in the "C" locale: space, tab, LF, VT, FF, CR. */
  predicate CSpace(c: char) { c == ' ' || '\t' <= c <= '\r' }

  /** The regular-expression class `\w`: letters, digits and underscore. */
  predicate IsWord(c: char) { IsAlnum(c) || c == '_' }

  /** The regular-expression class `\s`, which Python defines by `str.isspace`. */
  predicate IsRegexSpace(c: char) { PySpace(c) }

  /** A digit's numeric value. */
  function DigitValue(c: char): (d: nat)
    requires IsDigit(c)
    ensures d < 10
  {
    (c - '0') as nat
  }

  /** `str.lower` on one ASCII character. */
  function Lower(c: char): (r: char)
    ensures 'A' <= c <= 'Z' ==> 'a' <= r <= 'z' && r - 'a' == c - 'A'
    ensures !('A' <= c <= 'Z') ==> r == c
  {
    if 'A' <= c <= 'Z' then (c - 'A' + 'a') as char else c
  }

  function LowerString(s: string): (r: string)
    ensures |r| == |s|
    ensures forall k :: 0 <= k < |s| ==> r[k] == Lower(s[k])
  {
    if s == [] then [] else [Lower(s[0])] + LowerString(s[1..])
  }

  /** Lower-casing twice is lower-casing once. */
  lemma LowerIdempotent(s: string)
    ensures LowerString(LowerString(s)) == LowerString(s)
  {
    var l := LowerString(s);
    assert forall k :: 0 <= k < |l| ==> LowerString(l)[k] == l[k];
  }

  /** True when every character of `s` satisfies the digit class. */
  predicate AllDigits(s: string) { forall k :: 0 <= k < |s| ==> IsDigit(s[k]) }

  /** The value of a run of decimal digits, as `int(s)` and `std::stoi` compute it. */
  function DigitsValue(s: string): nat
    requires AllDigits(s)
    decreases |s|
  {
    if s == [] then 0 else DigitsValue(s[..|s| - 1]) * 10 + DigitValue(s[|s| - 1])
  }

  /** The number of occurrences of `c` in `s`. */
  function Occurrences(s: string, c: char): (n: nat)
    ensures n <= |s|
  {
    if s == [] then 0 else (if s[0] == c then 1 else 0) + Occurrences(s[1..], c)
  }

  lemma OccurrencesNone(s: string, c: char)
    ensures Occurrences(s, c) == 0 <==> c !in s
  {
    if s != [] {
      OccurrencesNone(s[1..], c);
      assert s == [s[0]] + s[1..];
    }
  }

  lemma OccurrencesAppend(s: string, t: string, c: char)
    ensures Occurrences(s + t, c) == Occurrences(s, c) + Occurrences(t, c)
  {
    if s != [] {
      assert (s + t)[1..] == s[1..] + t;
      OccurrencesAppend(s[1..], t, c);
    } else {
      assert s + t == t;
    }
  }

  /** The end of the maximal run of letters, digits and underscores (`\w` in ASCII) that starts at `i`. */
  function WordEnd(s: string, i: nat): (e: nat)
    requires i <= |s|
    ensures i <= e <= |s|
    ensures forall k :: i <= k < e ==> IsWord(s[k])
    ensures e < |s| ==> !IsWord(s[e])
    decreases |s| - i
  {
    if i < |s| && IsWord(s[i]) then WordEnd(s, i + 1) else i
  }

  lemma {:induction false} WordEndAll(s: string, i: nat)
    requires i <= |s| && forall k :: i <= k < |s| ==> IsWord(s[k])
    ensures WordEnd(s, i) == |s|
    decreases |s| - i
  {
    if i < |s| {
      WordEndAll(s, i + 1);
    }
  }

  /** The end of the maximal run of digits that starts at `i`. */
  function DigitsEnd(s: string, i: nat): (e: nat)
    requires i <= |s|
    ensures i <= e <= |s| && AllDigits(s[i..e])
    ensures e < |s| ==> !IsDigit(s[e])
    decreases |s| - i
  {
    if i < |s| && IsDigit(s[i]) then
      var e := DigitsEnd(s, i + 1);
      assert s[i..e] == [s[i]] + s[i + 1..e];
      e
    else i
  }

  lemma {:induction false} DigitsEndAll(s: string, i: nat)
    requires i <= |s| && forall k :: i <= k < |s| ==> IsDigit(s[k])
    ensures DigitsEnd(s, i) == |s|
    decreases |s| - i
  {
    if i < |s| {
      DigitsEndAll(s, i + 1);
    }
  }

  /** The decimal digit for `d`. */
  function DigitChar(d: nat): (c: char)
    requires d < 10
    ensures IsDigit(c) && DigitValue(c) == d
  {
    ('0' as int + d) as char
  }

  /** The decimal representation of `n`, as `str(n)` and f-strings write it. */
  function NatString(n: nat): (r: string)
    ensures r != [] && AllDigits(r)
    decreases n
  {
    if n < 10 then [DigitChar(n)] else NatString(n / 10) + [DigitChar(n % 10)]
  }

  /** Reading the representation back gives the number. */
  lemma {:induction false} NatStringValue(n: nat)
    ensures DigitsValue(NatString(n)) == n
    decreases n
  {
    var r := NatString(n);
    if n >= 10 {
      NatStringValue(n / 10);
      assert r[..|r| - 1] == NatString(n / 10);
    } else {
      assert r[..0] == [];
    }
  }

  // ---------------------------------------------------------------- digit/dot runs

  /** The characters of a number lexeme: digits and dots only. */
  predicate DigitsAndDots(s: string) { forall k :: 0 <= k < |s| ==> IsDigit(s[k]) || s[k] == '.' }

  /** The end of the maximal run of digits and dots that starts at `i`. */
  function RunEnd(s: string, i: nat): (e: nat)
    requires i <= |s|
    ensures i <= e <= |s|
    ensures DigitsAndDots(s[i..e])
    ensures e < |s| ==> !(IsDigit(s[e]) || s[e] == '.')
    decreases |s| - i
  {
    if i < |s| && (IsDigit(s[i]) || s[i] == '.') then RunEnd(s, i + 1) else i
  }

  /** The maximal digit/dot run at `i`. */
  function Lexeme(s: string, i: nat): (w: string)
    requires i <= |s|
    ensures DigitsAndDots(w)
  {
    s[i..RunEnd(s, i)]
  }

  /** One more character of the run: the lexeme grows by it and so does its dot count. */
  lemma ExtendRun(s: string, i: nat, p: nat)
    requires i <= p <= |s| && p <= RunEnd(s, i) && p < |s| && (IsDigit(s[p]) || s[p] == '.')
    ensures p < RunEnd(s, i)
    ensures s[i..p + 1] == s[i..p] + [s[p]]
    ensures Occurrences(s[i..p + 1], '.') == Occurrences(s[i..p], '.') + (if s[p] == '.' then 1 else 0)
  {
    assert s[i..p + 1] == s[i..p] + [s[p]];
    OccurrencesAppend(s[i..p], [s[p]], '.');
  }

  lemma RunStops(s: string, i: nat, p: nat)
    requires i <= p <= |s| && p <= RunEnd(s, i) && (p < |s| ==> !(IsDigit(s[p]) || s[p] == '.'))
    ensures p == RunEnd(s, i)
  {
  }

  /** A run with two dots in a prefix has two dots in all of it. */
  lemma DotsOfPrefix(s: string, i: nat, j: nat, e: nat)
    requires i <= j <= e <= |s|
    ensures Occurrences(s[i..j], '.') <= Occurrences(s[i..e], '.')
  {
    assert s[i..e] == s[i..j] + s[j..e];
    OccurrencesAppend(s[i..j], s[j..e], '.');
  }

  /** A text made of digits and dots from `i` on is one run to its end. */
  lemma {:induction false} RunEndAll(s: string, i: nat)
    requires i <= |s| && forall k :: i <= k < |s| ==> IsDigit(s[k]) || s[k] == '.'
    ensures RunEnd(s, i) == |s|
    decreases |s| - i
  {
    if i < |s| {
      RunEndAll(s, i + 1);
    }
  }
}
