/**
 * The token type and the classification tables of the language
 * (src/lexer/constants.ts).
 */
module Tokens {
  import opened Chars

  datatype TokenKind = Identifier | Number | Keyword | Symbol

  /** A token is a kind and its text; it carries no position. */
  datatype Token = Token(kind: TokenKind, value: string)

  /** Reserved words; `let` and `return` are listed twice, as in the source. */
  const KEYWORDS: seq<string> :=
    ["print", "if", "else", "while", "let", "return", "break", "continue", "let", "fn", "return"]

  const SYMBOLS: seq<string> :=
    ["+", "-", "*", "/", "=", ";", "(", ")", "{", "}", ">", "<", "!", ","]

  const MULTI_CHAR_SYMBOLS: seq<string> := ["==", "!=", ">=", "<="]

  /** Every single symbol is one character long. */
  lemma SymbolsAreSingleCharacters()
    ensures forall s :: s in SYMBOLS ==> |s| == 1
  {
  }

  /** Every multi-character symbol has two characters and starts with a single symbol. */
  lemma MultiCharSymbolsShape()
    ensures forall m :: m in MULTI_CHAR_SYMBOLS ==> |m| == 2 && [m[0]] in SYMBOLS
    ensures forall m :: m in MULTI_CHAR_SYMBOLS <==> m in {"==", "!=", ">=", "<="}
  {
  }

  /** Duplicates in KEYWORDS do not matter: only membership is ever asked. */
  lemma KeywordSet()
    ensures |KEYWORDS| == 11
    ensures forall w :: w in KEYWORDS <==>
      w in {"print", "if", "else", "while", "let", "return", "break", "continue", "fn"}
  {
  }

  /** Every keyword is a non-empty run of lower-case letters. */
  lemma KeywordsAreLowerCaseWords()
    ensures forall w :: w in KEYWORDS ==> |w| > 0 && forall k :: 0 <= k < |w| ==> 'a' <= w[k] <= 'z'
  {
  }

  /** `true` and `false` are not keywords, and brackets, dot, `&` and `|` are not symbols. */
  lemma MissingEntries()
    ensures "true" !in KEYWORDS && "false" !in KEYWORDS
    ensures "[" !in SYMBOLS && "]" !in SYMBOLS && "." !in SYMBOLS && "&" !in SYMBOLS && "|" !in SYMBOLS
  {
    forall k | 0 <= k < |KEYWORDS| ensures KEYWORDS[k] != "true" && KEYWORDS[k] != "false" {
      assert KEYWORDS[k][0] != 't' && (KEYWORDS[k][0] == 'f' ==> |KEYWORDS[k]| == 2);
    }
    forall k | 0 <= k < |SYMBOLS| ensures SYMBOLS[k][0] !in "[].&|" {
    }
  }

  /** No symbol character is whitespace, a letter, a digit, an underscore or a dot. */
  lemma SymbolCharactersAreDistinct()
    ensures forall s :: s in SYMBOLS ==> !IsWhitespace(s[0]) && !IsWordChar(s[0]) && s[0] != '.'
  {
  }

  /** The texts of a token sequence, concatenated. */
  function Values(ts: seq<Token>): string
  {
    if ts == [] then [] else ts[0].value + Values(ts[1..])
  }

  lemma {:induction false} ValuesAppend(a: seq<Token>, b: seq<Token>)
    ensures Values(a + b) == Values(a) + Values(b)
  {
    if a == [] {
      assert a + b == b;
    } else {
      assert (a + b)[1..] == a[1..] + b;
      ValuesAppend(a[1..], b);
    }
  }

  /** A digit followed by digits and dots, with at most one dot. */
  predicate IsNumeral(w: string)
  {
    && |w| > 0
    && IsDigit(w[0])
    && (forall k :: 0 <= k < |w| ==> IsNumeralChar(w[k]))
    && DotCount(w) <= 1
  }

  /** `u` sits in `ts` at `i`, one token after the other. */
  predicate Spells(ts: seq<Token>, i: nat, u: seq<Token>)
    decreases |u|
  {
    i + |u| <= |ts| && (|u| == 0 || (ts[i] == u[0] && Spells(ts, i + 1, u[1..])))
  }

  lemma {:induction false} SpellsSplit(ts: seq<Token>, i: nat, a: seq<Token>, b: seq<Token>)
    requires Spells(ts, i, a + b)
    ensures Spells(ts, i, a) && Spells(ts, i + |a|, b)
    decreases |a|
  {
    if |a| == 0 {
      assert a + b == b;
    } else {
      assert (a + b)[0] == a[0] && (a + b)[1..] == a[1..] + b;
      SpellsSplit(ts, i + 1, a[1..], b);
    }
  }

  /** `u` is `a` followed by `b`. */
  predicate Joins(u: seq<Token>, a: seq<Token>, b: seq<Token>)
  {
    u == a + b
  }

  /** `SpellsSplit` for a sequence already known to be the two parts one after the other. */
  lemma SpellsSplitAt(ts: seq<Token>, i: nat, u: seq<Token>, a: seq<Token>, b: seq<Token>)
    requires Joins(u, a, b) && Spells(ts, i, u)
    ensures Spells(ts, i, a) && Spells(ts, i + |a|, b) && |u| == |a| + |b|
  {
    SpellsSplit(ts, i, a, b);
  }

  lemma SpellsHead(ts: seq<Token>, i: nat, u: seq<Token>)
    requires Spells(ts, i, u) && |u| > 0
    ensures ts[i] == u[0]
  {
  }

  /** The tokens from `i` on sit in `ts` at `i`. */
  lemma {:induction false} SpellsSuffix(ts: seq<Token>, i: nat)
    requires i <= |ts|
    ensures Spells(ts, i, ts[i..])
    decreases |ts| - i
  {
    if i < |ts| {
      assert ts[i..][1..] == ts[i + 1..];
      SpellsSuffix(ts, i + 1);
    }
  }
}
