/**
 * The character classes both tokenizers test with regular expressions,
 * restricted to ASCII, and the "maximal run" scan their inner loops perform.
 */
module Chars {

  /** `/\s/` on ASCII: space, tab, line feed, vertical tab, form feed, carriage return. */
  predicate IsWhitespace(c: char)
  {
    c == ' ' || c == '\t' || c == '\n' || c == '\r' || c as int == 11 || c as int == 12
  }

  /** `/[a-z]/i` */
  predicate IsLetter(c: char)
  {
    'a' <= c <= 'z' || 'A' <= c <= 'Z'
  }

  /** `/[0-9]/` */
  predicate IsDigit(c: char)
  {
    '0' <= c <= '9'
  }

  /** `/[a-zA-Z0-9_]/`, the continuation of a backend identifier */
  predicate IsWordChar(c: char)
  {
    IsLetter(c) || IsDigit(c) || c == '_'
  }

  /** What a numeral's scan accepts: a digit or a dot */
  predicate IsNumeralChar(c: char)
  {
    IsDigit(c) || c == '.'
  }

  /** Where the maximal run of characters satisfying `p` that starts at `i` ends. */
  function RunEnd(s: string, i: nat, p: char -> bool): (j: nat)
    requires i <= |s|
    ensures i <= j <= |s|
    ensures forall k :: i <= k < j ==> p(s[k])
    ensures j == |s| || !p(s[j])
    decreases |s| - i
  {
    if i < |s| && p(s[i]) then RunEnd(s, i + 1, p) else i
  }

  /** A run end is determined by its two defining properties. */
  lemma RunEndUnique(s: string, i: nat, p: char -> bool, j: nat)
    requires i <= j <= |s|
    requires forall k :: i <= k < j ==> p(s[k])
    requires j == |s| || !p(s[j])
    ensures RunEnd(s, i, p) == j
  {
  }

  /** The number of dots in `s`; `s.split(".").length` is one more than this. */
  function DotCount(s: string): nat
  {
    multiset(s)['.']
  }

  /** `t` occurs in `s` at position `a`. */
  predicate OccursAt(s: string, t: string, a: nat)
  {
    a + |t| <= |s| && s[a..a + |t|] == t
  }
}
