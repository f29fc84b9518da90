/**
 * The second-generation tokenizer (backend/src/lexer/tokenizer.ts): it skips
 * whitespace and `//` line comments, tries two-character symbols before
 * one-character symbols, reads identifiers (letters, digits and `_`, not
 * starting with a digit) and numerals, and fails on anything else.
 *
 * Its keyword and symbol tables come from a constants file that is not part
 * of this model, so they are a parameter here.
 */
module BackendTokenizer {
  import opened Wrappers
  import opened Chars
  import opened Tokens

  /** The three tables the tokenizer consults. */
  datatype Lexicon = Lexicon(keywords: seq<string>, symbols: seq<string>, multiCharSymbols: seq<string>)

  datatype LexError =
    | UnexpectedCharacter(c: char)
    | InvalidNumberFormat(text: string)

  predicate NotNewline(c: char)
  {
    c != '\n'
  }

  /** An identifier starts with a letter or `_`. */
  predicate IsWordStart(c: char)
  {
    IsLetter(c) || c == '_'
  }

  /** `//` starts at `i`. */
  predicate CommentAt(s: string, i: nat)
  {
    i + 1 < |s| && s[i] == '/' && s[i + 1] == '/'
  }

  /** `input.slice(i, i + 2)`: two characters, or one at the end of the input. */
  function TwoChar(s: string, i: nat): (t: string)
    requires i < |s|
    ensures |t| == (if i + 1 < |s| then 2 else 1) && t[0] == s[i]
  {
    if i + 2 <= |s| then s[i..i + 2] else s[i..]
  }

  function WordKind(lx: Lexicon, word: string): (k: TokenKind)
    ensures k == Keyword <==> word in lx.keywords
    ensures k == Keyword || k == Identifier
  {
    if word in lx.keywords then Keyword else Identifier
  }

  /** The tokens of `input[i..]`: the specification of the cursor loop of `Tokenize`. */
  function LexFrom(lx: Lexicon, input: string, i: nat): (r: Result<seq<Token>, LexError>)
    ensures r.Ok? && i <= |input| ==> |r.value| <= |input| - i
    decreases |input| - i
  {
    if i >= |input| then Ok([])
    else if IsWhitespace(input[i]) then LexFrom(lx, input, i + 1)
    else if CommentAt(input, i) then LexFrom(lx, input, RunEnd(input, i, NotNewline))
    else if TwoChar(input, i) in lx.multiCharSymbols then
      Prepend([Token(Symbol, TwoChar(input, i))], LexFrom(lx, input, i + 2))
    else if [input[i]] in lx.symbols then
      Prepend([Token(Symbol, [input[i]])], LexFrom(lx, input, i + 1))
    else if IsWordStart(input[i]) then
      var j := RunEnd(input, i, IsWordChar);
      Prepend([Token(WordKind(lx, input[i..j]), input[i..j])], LexFrom(lx, input, j))
    else if IsDigit(input[i]) then
      var j := RunEnd(input, i, IsNumeralChar);
      if DotCount(input[i..j]) > 1 then Err(InvalidNumberFormat(input[i..j]))
      else Prepend([Token(Number, input[i..j])], LexFrom(lx, input, j))
    else
      Err(UnexpectedCharacter(input[i]))
  }

  /** Every token covers at least one character, so there are never more tokens than characters. */
  function Lex(lx: Lexicon, input: string): (r: Result<seq<Token>, LexError>)
    ensures r.Ok? ==> |r.value| <= |input|
  {
    LexFrom(lx, input, 0)
  }

  // One lemma per branch of the scan, each stating what the branch contributes.

  lemma SpaceStep(lx: Lexicon, s: string, i: nat)
    requires i < |s| && IsWhitespace(s[i])
    ensures LexFrom(lx, s, i) == LexFrom(lx, s, i + 1)
  {
  }

  /** A comment runs up to, not including, the next newline or the end of the input. */
  lemma CommentStep(lx: Lexicon, s: string, i: nat, j: nat)
    requires i < |s| && !IsWhitespace(s[i]) && CommentAt(s, i)
    requires i <= j <= |s| && (forall k :: i <= k < j ==> s[k] != '\n') && (j == |s| || s[j] == '\n')
    ensures LexFrom(lx, s, i) == LexFrom(lx, s, j)
  {
    RunEndUnique(s, i, NotNewline, j);
  }

  /** A two-character symbol is one token, tried before any one-character symbol. */
  lemma MultiCharStep(lx: Lexicon, s: string, i: nat)
    requires i < |s| && !IsWhitespace(s[i]) && !CommentAt(s, i)
    requires TwoChar(s, i) in lx.multiCharSymbols
    ensures LexFrom(lx, s, i) == Prepend([Token(Symbol, TwoChar(s, i))], LexFrom(lx, s, i + 2))
  {
  }

  lemma SymbolStep(lx: Lexicon, s: string, i: nat)
    requires i < |s| && !IsWhitespace(s[i]) && !CommentAt(s, i)
    requires TwoChar(s, i) !in lx.multiCharSymbols && [s[i]] in lx.symbols
    ensures LexFrom(lx, s, i) == Prepend([Token(Symbol, [s[i]])], LexFrom(lx, s, i + 1))
  {
  }

  /** Maximal munch for identifiers: a word ends at the first non-word character. */
  lemma WordStep(lx: Lexicon, s: string, i: nat, j: nat)
    requires i < |s| && !IsWhitespace(s[i]) && !CommentAt(s, i)
    requires TwoChar(s, i) !in lx.multiCharSymbols && [s[i]] !in lx.symbols && IsWordStart(s[i])
    requires i < j <= |s| && (forall k :: i <= k < j ==> IsWordChar(s[k])) && (j == |s| || !IsWordChar(s[j]))
    ensures LexFrom(lx, s, i) == Prepend([Token(WordKind(lx, s[i..j]), s[i..j])], LexFrom(lx, s, j))
  {
    RunEndUnique(s, i, IsWordChar, j);
  }

  /** Maximal munch for numerals: a numeral ends at the first character that is neither digit nor dot. */
  lemma NumeralStep(lx: Lexicon, s: string, i: nat, j: nat)
    requires i < |s| && !IsWhitespace(s[i]) && !CommentAt(s, i)
    requires TwoChar(s, i) !in lx.multiCharSymbols && [s[i]] !in lx.symbols && IsDigit(s[i])
    requires i < j <= |s| && (forall k :: i <= k < j ==> IsNumeralChar(s[k])) && (j == |s| || !IsNumeralChar(s[j]))
    ensures LexFrom(lx, s, i) ==
      if DotCount(s[i..j]) > 1 then Err(InvalidNumberFormat(s[i..j]))
      else Prepend([Token(Number, s[i..j])], LexFrom(lx, s, j))
  {
    RunEndUnique(s, i, IsNumeralChar, j);
  }

  lemma BadCharacterStep(lx: Lexicon, s: string, i: nat)
    requires i < |s| && !IsWhitespace(s[i]) && !CommentAt(s, i)
    requires TwoChar(s, i) !in lx.multiCharSymbols && [s[i]] !in lx.symbols
    requires !IsWordStart(s[i]) && !IsDigit(s[i])
    ensures LexFrom(lx, s, i) == Err(UnexpectedCharacter(s[i]))
  {
  }

  /** The comment loop: advance to the next newline or the end of the input. */
  method SkipComment(input: string, cursor: nat) returns (next: nat)
    requires cursor <= |input|
    ensures next == RunEnd(input, cursor, NotNewline)
  {
    next := cursor;
    while next < |input| && input[next] != '\n'
      invariant cursor <= next <= |input|
      invariant forall k :: cursor <= k < next ==> NotNewline(input[k])
    {
      next := next + 1;
    }
    RunEndUnique(input, cursor, NotNewline, next);
  }

  /** The identifier loop: collect letters, digits and `_`. */
  method ReadWord(input: string, cursor: nat) returns (word: string, next: nat)
    requires cursor <= |input|
    ensures next == RunEnd(input, cursor, IsWordChar) && word == input[cursor..next]
  {
    word, next := "", cursor;
    while next < |input| && IsWordChar(input[next])
      invariant cursor <= next <= |input|
      invariant word == input[cursor..next]
      invariant forall k :: cursor <= k < next ==> IsWordChar(input[k])
    {
      word := word + [input[next]];
      next := next + 1;
    }
    RunEndUnique(input, cursor, IsWordChar, next);
  }

  /** The numeral loop: collect digits and dots. */
  method ReadNumeral(input: string, cursor: nat) returns (number: string, next: nat)
    requires cursor <= |input|
    ensures next == RunEnd(input, cursor, IsNumeralChar) && number == input[cursor..next]
  {
    number, next := "", cursor;
    while next < |input| && (IsDigit(input[next]) || input[next] == '.')
      invariant cursor <= next <= |input|
      invariant number == input[cursor..next]
      invariant forall k :: cursor <= k < next ==> IsNumeralChar(input[k])
    {
      number := number + [input[next]];
      next := next + 1;
    }
    RunEndUnique(input, cursor, IsNumeralChar, next);
  }

  /** `tokenize`: the cursor loop, with the inner loops for comments, words and numerals. */
  method Tokenize(lx: Lexicon, input: string) returns (r: Result<seq<Token>, LexError>)
    ensures r == Lex(lx, input)
  {
    var tokens: seq<Token> := [];
    var cursor := 0;
    assert Prepend(tokens, LexFrom(lx, input, cursor)) == LexFrom(lx, input, 0) by {
      if LexFrom(lx, input, 0).Ok? { assert [] + LexFrom(lx, input, 0).value == LexFrom(lx, input, 0).value; }
    }
    while cursor < |input|
      invariant Lex(lx, input) == Prepend(tokens, LexFrom(lx, input, cursor))
      decreases |input| - cursor
    {
      var c := input[cursor];

      // Skip whitespace
      if IsWhitespace(c) {
        SpaceStep(lx, input, cursor);
        cursor := cursor + 1;
        continue;
      }

      // Skip comments up to, not including, the end of the line
      if c == '/' && cursor + 1 < |input| && input[cursor + 1] == '/' {
        ghost var start := cursor;
        cursor := SkipComment(input, cursor);
        CommentStep(lx, input, start, cursor);
        continue;
      }

      // Two-character symbols first
      var twoChar := TwoChar(input, cursor);
      if twoChar in lx.multiCharSymbols {
        MultiCharStep(lx, input, cursor);
        PrependStep(Lex(lx, input), tokens, LexFrom(lx, input, cursor), [Token(Symbol, twoChar)], LexFrom(lx, input, cursor + 2));
        tokens := tokens + [Token(Symbol, twoChar)];
        cursor := cursor + 2;
        continue;
      }

      // Then one-character symbols
      if [c] in lx.symbols {
        SymbolStep(lx, input, cursor);
        PrependStep(Lex(lx, input), tokens, LexFrom(lx, input, cursor), [Token(Symbol, [c])], LexFrom(lx, input, cursor + 1));
        tokens := tokens + [Token(Symbol, [c])];
        cursor := cursor + 1;
        continue;
      }

      // Identifiers and keywords
      if IsLetter(c) || c == '_' {
        ghost var start := cursor;
        var word;
        word, cursor := ReadWord(input, cursor);
        WordStep(lx, input, start, cursor);
        var kind := WordKind(lx, word);
        PrependStep(Lex(lx, input), tokens, LexFrom(lx, input, start), [Token(kind, word)], LexFrom(lx, input, cursor));
        tokens := tokens + [Token(kind, word)];
        continue;
      }

      // Numerals
      if IsDigit(c) {
        ghost var start := cursor;
        var number;
        number, cursor := ReadNumeral(input, cursor);
        NumeralStep(lx, input, start, cursor);
        if DotCount(number) > 1 {
          return Err(InvalidNumberFormat(number));
        }
        PrependStep(Lex(lx, input), tokens, LexFrom(lx, input, start), [Token(Number, number)], LexFrom(lx, input, cursor));
        tokens := tokens + [Token(Number, number)];
        continue;
      }

      BadCharacterStep(lx, input, cursor);
      return Err(UnexpectedCharacter(c));
    }
    assert tokens + [] == tokens;
    return Ok(tokens);
  }

  // ---------------------------------------------------------------------------
  // What a successful scan produces

  /** `s[i..]` with whitespace and `//` line comments (up to the newline) removed. */
  function Stripped(s: string, i: nat): string
    decreases |s| - i
  {
    if i >= |s| then []
    else if IsWhitespace(s[i]) then Stripped(s, i + 1)
    else if CommentAt(s, i) then Stripped(s, RunEnd(s, i, NotNewline))
    else [s[i]] + Stripped(s, i + 1)
  }

  /**
   * The tables the tokenizer is meant to be given: a two-character symbol
   * does not end in whitespace or in `/`, so it never swallows a separator
   * or the first slash of a comment.
   */
  predicate LexiconSeparates(lx: Lexicon)
  {
    forall m :: m in lx.multiCharSymbols && |m| == 2 ==> !IsWhitespace(m[1]) && m[1] != '/'
  }

  /** A letter or `_` followed by letters, digits and `_`. */
  predicate IsIdentifier(w: string)
  {
    |w| > 0 && IsWordStart(w[0]) && forall k :: 0 <= k < |w| ==> IsWordChar(w[k])
  }

  /** The shape of every token this tokenizer emits, relative to its tables. */
  predicate WellFormed(lx: Lexicon, t: Token)
  {
    match t.kind
    case Identifier => IsIdentifier(t.value) && t.value !in lx.keywords
    case Keyword => IsIdentifier(t.value) && t.value in lx.keywords
    case Number => IsNumeral(t.value)
    case Symbol => t.value in lx.multiCharSymbols || t.value in lx.symbols
  }

  lemma {:induction false} StrippedRun(s: string, i: nat, j: nat)
    requires i <= j <= |s|
    requires forall k :: i <= k < j ==> !IsWhitespace(s[k]) && !CommentAt(s, k)
    ensures Stripped(s, i) == s[i..j] + Stripped(s, j)
    decreases j - i
  {
    if i < j {
      assert !IsWhitespace(s[i]) && !CommentAt(s, i);
      assert Stripped(s, i) == [s[i]] + Stripped(s, i + 1);
      StrippedRun(s, i + 1, j);
      assert s[i..j] == [s[i]] + s[i + 1..j];
      assert [s[i]] + (s[i + 1..j] + Stripped(s, j)) == ([s[i]] + s[i + 1..j]) + Stripped(s, j);
    }
  }

  /**
   * One step of a successful scan from `i`: the tokens `ts` found there, which
   * account for the stripped text up to `j`, where the scan resumes.
   */
  predicate ScanStep(lx: Lexicon, input: string, i: nat, ts: seq<Token>, j: nat)
  {
    && i < j && LexFrom(lx, input, i).Ok? && LexFrom(lx, input, j).Ok?
    && LexFrom(lx, input, i).value == ts + LexFrom(lx, input, j).value
    && Values(ts) + Stripped(input, j) == Stripped(input, i)
    && (forall t :: t in ts ==> WellFormed(lx, t))
  }

  lemma LexFromStep(lx: Lexicon, input: string, i: nat) returns (ts: seq<Token>, j: nat)
    requires LexiconSeparates(lx)
    requires i < |input| && LexFrom(lx, input, i).Ok?
    ensures ScanStep(lx, input, i, ts, j)
  {
    var c := input[i];
    if IsWhitespace(c) {
      ts, j := StepSpace(lx, input, i);
    } else if CommentAt(input, i) {
      ts, j := StepComment(lx, input, i);
    } else if TwoChar(input, i) in lx.multiCharSymbols {
      ts, j := StepMultiChar(lx, input, i);
    } else if [c] in lx.symbols {
      ts, j := StepSymbol(lx, input, i);
    } else if IsWordStart(c) {
      ts, j := StepWord(lx, input, i);
    } else {
      ts, j := StepNumeral(lx, input, i);
    }
  }

  lemma StepSpace(lx: Lexicon, input: string, i: nat) returns (ts: seq<Token>, j: nat)
    requires i < |input| && IsWhitespace(input[i]) && LexFrom(lx, input, i).Ok?
    ensures ScanStep(lx, input, i, ts, j)
  {
    ts, j := [], i + 1;
    SpaceStep(lx, input, i);
  }

  lemma StepComment(lx: Lexicon, input: string, i: nat) returns (ts: seq<Token>, j: nat)
    requires i < |input| && !IsWhitespace(input[i]) && CommentAt(input, i) && LexFrom(lx, input, i).Ok?
    ensures ScanStep(lx, input, i, ts, j)
  {
    ts, j := [], RunEnd(input, i, NotNewline);
    CommentStep(lx, input, i, j);
  }

  lemma StepSymbol(lx: Lexicon, input: string, i: nat) returns (ts: seq<Token>, j: nat)
    requires i < |input| && !IsWhitespace(input[i]) && !CommentAt(input, i)
    requires TwoChar(input, i) !in lx.multiCharSymbols && [input[i]] in lx.symbols
    requires LexFrom(lx, input, i).Ok?
    ensures ScanStep(lx, input, i, ts, j)
  {
    ts, j := [Token(Symbol, [input[i]])], i + 1;
    SymbolStep(lx, input, i);
    assert input[i..i + 1] == [input[i]];
    TokenText(input, i, j, ts[0]);
  }

  lemma StepMultiChar(lx: Lexicon, input: string, i: nat) returns (ts: seq<Token>, j: nat)
    requires LexiconSeparates(lx)
    requires i < |input| && !IsWhitespace(input[i]) && !CommentAt(input, i)
    requires TwoChar(input, i) in lx.multiCharSymbols && LexFrom(lx, input, i).Ok?
    ensures ScanStep(lx, input, i, ts, j)
  {
    var t := TwoChar(input, i);
    ts, j := [Token(Symbol, t)], i + 2;
    MultiCharStep(lx, input, i);
    if i + 1 < |input| {
      assert !IsWhitespace(input[i + 1]) && input[i + 1] != '/' by {
        assert t in lx.multiCharSymbols && |t| == 2 && t[1] == input[i + 1];
      }
      TokenText(input, i, i + 2, Token(Symbol, t));
    } else {
      TokenText(input, i, i + 1, Token(Symbol, t));
      assert Stripped(input, i + 2) == [] == Stripped(input, i + 1);
    }
  }

  lemma StepWord(lx: Lexicon, input: string, i: nat) returns (ts: seq<Token>, j: nat)
    requires i < |input| && !IsWhitespace(input[i]) && !CommentAt(input, i)
    requires TwoChar(input, i) !in lx.multiCharSymbols && [input[i]] !in lx.symbols
    requires IsWordStart(input[i]) && LexFrom(lx, input, i).Ok?
    ensures ScanStep(lx, input, i, ts, j)
  {
    j := RunEnd(input, i, IsWordChar);
    var t := Token(WordKind(lx, input[i..j]), input[i..j]);
    ts := [t];
    WordStep(lx, input, i, j);
    TokenText(input, i, j, t);
    assert WellFormed(lx, t) by {
      assert IsIdentifier(t.value);
    }
  }

  lemma StepNumeral(lx: Lexicon, input: string, i: nat) returns (ts: seq<Token>, j: nat)
    requires i < |input| && !IsWhitespace(input[i]) && !CommentAt(input, i)
    requires TwoChar(input, i) !in lx.multiCharSymbols && [input[i]] !in lx.symbols
    requires !IsWordStart(input[i]) && LexFrom(lx, input, i).Ok?
    ensures ScanStep(lx, input, i, ts, j)
  {
    j := RunEnd(input, i, IsNumeralChar);
    var t := Token(Number, input[i..j]);
    ts := [t];
    NumeralStep(lx, input, i, j);
    TokenText(input, i, j, t);
    assert WellFormed(lx, t) by {
      assert IsNumeral(t.value);
    }
  }

  /** A token read from `s[i..j]`, which holds no whitespace and no comment, accounts for that text. */
  lemma TokenText(s: string, i: nat, j: nat, t: Token)
    requires i < j <= |s| && t.value == s[i..j] && !CommentAt(s, i)
    requires forall k :: i <= k < j ==> !IsWhitespace(s[k])
    requires forall k :: i < k < j ==> s[k] != '/'
    ensures Values([t]) + Stripped(s, j) == Stripped(s, i)
  {
    assert forall k :: i <= k < j ==> !CommentAt(s, k);
    StrippedRun(s, i, j);
    assert [t][1..] == [];
  }

  lemma {:induction false} LexFromOk(lx: Lexicon, input: string, i: nat)
    requires LexiconSeparates(lx) && LexFrom(lx, input, i).Ok?
    ensures Values(LexFrom(lx, input, i).value) == Stripped(input, i)
    ensures forall t :: t in LexFrom(lx, input, i).value ==> WellFormed(lx, t)
    decreases |input| - i
  {
    if i < |input| {
      var ts, j := LexFromStep(lx, input, i);
      LexFromOk(lx, input, j);
      ValuesAppend(ts, LexFrom(lx, input, j).value);
    }
  }

  /**
   * With tables that separate, the token texts of a successful scan spell the
   * input without its whitespace and comments, and every token has the shape
   * its kind promises.
   */
  lemma LexOk(lx: Lexicon, input: string)
    requires LexiconSeparates(lx) && Lex(lx, input).Ok?
    ensures Values(Lex(lx, input).value) == Stripped(input, 0)
    ensures forall t :: t in Lex(lx, input).value ==> WellFormed(lx, t)
  {
    LexFromOk(lx, input, 0);
  }

  // ---------------------------------------------------------------------------
  // When the scan fails

  /**
   * What an error found in `input[i..]` reports: a character at or after `i`
   * that starts no token, or a whole run of digits and dots that starts with a
   * digit and holds more than one dot.
   */
  predicate Explains(lx: Lexicon, input: string, i: nat, e: LexError)
  {
    match e
    case UnexpectedCharacter(c) =>
      && (exists a :: i <= a < |input| && input[a] == c)
      && !IsWhitespace(c) && !IsWordStart(c) && !IsDigit(c) && [c] !in lx.symbols
    case InvalidNumberFormat(t) =>
      && |t| > 0 && IsDigit(t[0]) && DotCount(t) > 1
      && (forall k :: 0 <= k < |t| ==> IsNumeralChar(t[k]))
      && exists a :: i <= a <= |input| && OccursAt(input, t, a)
  }

  /** An explanation found further on also explains the error from an earlier position. */
  lemma ExplainsEarlier(lx: Lexicon, input: string, i: nat, j: nat, e: LexError)
    requires i <= j && Explains(lx, input, j, e)
    ensures Explains(lx, input, i, e)
  {
  }

  /** What an error reports: the offending character, or the whole malformed numeral. */
  lemma {:induction false} LexFromError(lx: Lexicon, input: string, i: nat)
    requires LexFrom(lx, input, i).Err?
    ensures Explains(lx, input, i, LexFrom(lx, input, i).error)
    decreases |input| - i
  {
    var j, found := ErrorStep(lx, input, i);
    if !found {
      LexFromError(lx, input, j);
      ExplainsEarlier(lx, input, i, j, LexFrom(lx, input, i).error);
    }
  }

  /** The error of a failing scan is either found at `i` or is the error of the scan from a later `j`. */
  lemma ErrorStep(lx: Lexicon, input: string, i: nat) returns (j: nat, found: bool)
    requires LexFrom(lx, input, i).Err?
    ensures found ==> Explains(lx, input, i, LexFrom(lx, input, i).error)
    ensures !found ==> i < j && LexFrom(lx, input, j) == LexFrom(lx, input, i)
  {
    var c := input[i];
    found := false;
    if IsWhitespace(c) {
      j := i + 1;
      SpaceStep(lx, input, i);
    } else if CommentAt(input, i) {
      j := RunEnd(input, i, NotNewline);
      CommentStep(lx, input, i, j);
    } else if TwoChar(input, i) in lx.multiCharSymbols {
      j := i + 2;
      MultiCharStep(lx, input, i);
    } else if [c] in lx.symbols {
      j := i + 1;
      SymbolStep(lx, input, i);
    } else if IsWordStart(c) {
      j := RunEnd(input, i, IsWordChar);
      WordStep(lx, input, i, j);
    } else if IsDigit(c) {
      j := RunEnd(input, i, IsNumeralChar);
      NumeralStep(lx, input, i, j);
      if DotCount(input[i..j]) > 1 {
        found := true;
        assert OccursAt(input, input[i..j], i);
      }
    } else {
      j, found := i, true;
      BadCharacterStep(lx, input, i);
    }
  }

  // ---------------------------------------------------------------------------
  // Exactly which inputs the scan accepts

  /** Where the step of the scan at `i` ends, whether or not it yields a token. */
  function StepEnd(lx: Lexicon, s: string, i: nat): (j: nat)
    requires i < |s|
    ensures i < j <= |s|
  {
    if IsWhitespace(s[i]) then i + 1
    else if CommentAt(s, i) then RunEnd(s, i, NotNewline)
    else if TwoChar(s, i) in lx.multiCharSymbols then (if i + 2 <= |s| then i + 2 else |s|)
    else if [s[i]] in lx.symbols then i + 1
    else if IsWordStart(s[i]) then RunEnd(s, i, IsWordChar)
    else if IsDigit(s[i]) then RunEnd(s, i, IsNumeralChar)
    else i + 1
  }

  /**
   * The step at `i` fails: the character there starts no whitespace, comment,
   * symbol, identifier or numeral, or it starts a run of digits and dots
   * with more than one dot.
   */
  predicate FailsAt(lx: Lexicon, s: string, i: nat)
    requires i < |s|
  {
    && !IsWhitespace(s[i]) && !CommentAt(s, i)
    && TwoChar(s, i) !in lx.multiCharSymbols && [s[i]] !in lx.symbols && !IsWordStart(s[i])
    && (IsDigit(s[i]) ==> DotCount(s[i..RunEnd(s, i, IsNumeralChar)]) > 1)
  }

  /** What a failing step at `i` reports. */
  function ErrorAt(s: string, i: nat): LexError
    requires i < |s|
  {
    if IsDigit(s[i]) then InvalidNumberFormat(s[i..RunEnd(s, i, IsNumeralChar)]) else UnexpectedCharacter(s[i])
  }

  /**
   * The scan from `i` takes a step at `p`. Positions inside a comment, a
   * symbol, an identifier or a numeral are never stepped to.
   */
  predicate Scanned(lx: Lexicon, s: string, i: nat, p: nat)
    decreases |s| - i
  {
    p == i || (i < |s| && Scanned(lx, s, StepEnd(lx, s, i), p))
  }

  lemma {:induction false} ScannedAfter(lx: Lexicon, s: string, i: nat)
    ensures forall p: nat :: Scanned(lx, s, i, p) ==> i <= p
    decreases |s| - i
  {
    if i < |s| {
      ScannedAfter(lx, s, StepEnd(lx, s, i));
    }
  }

  /** The positions the scan steps to form one chain: a later one is reached from an earlier one. */
  lemma {:induction false} ScannedChain(lx: Lexicon, s: string, i: nat, c: nat, p: nat)
    requires Scanned(lx, s, i, c) && Scanned(lx, s, i, p) && c <= p
    ensures Scanned(lx, s, c, p)
    decreases |s| - i
  {
    if c != i {
      ScannedAfter(lx, s, StepEnd(lx, s, i));
      ScannedChain(lx, s, StepEnd(lx, s, i), c, p);
    }
  }

  /** A comment the scan reaches is skipped whole: no position inside it is stepped to. */
  lemma CommentsAreSkipped(lx: Lexicon, s: string, i: nat, c: nat, p: nat)
    requires Scanned(lx, s, i, c) && CommentAt(s, c)
    requires Scanned(lx, s, i, p) && c < p
    ensures RunEnd(s, c, NotNewline) <= p
  {
    ScannedChain(lx, s, i, c, p);
    ScannedAfter(lx, s, StepEnd(lx, s, c));
  }

  /** A failing step fails the scan; any other step fails it iff the rest of the scan fails, with the same error. */
  lemma StepOutcome(lx: Lexicon, s: string, i: nat)
    requires i < |s|
    ensures FailsAt(lx, s, i) ==> LexFrom(lx, s, i) == Err(ErrorAt(s, i))
    ensures !FailsAt(lx, s, i) ==> (LexFrom(lx, s, i).Ok? <==> LexFrom(lx, s, StepEnd(lx, s, i)).Ok?)
    ensures !FailsAt(lx, s, i) && LexFrom(lx, s, i).Err? ==> LexFrom(lx, s, i) == LexFrom(lx, s, StepEnd(lx, s, i))
  {
    if !IsWhitespace(s[i]) && !CommentAt(s, i) && TwoChar(s, i) in lx.multiCharSymbols && i + 2 > |s| {
      assert LexFrom(lx, s, i + 2) == Ok([]) == LexFrom(lx, s, |s|);
    }
  }

  /** The scan succeeds iff none of the positions it steps to holds a failing step. */
  lemma {:induction false} LexFromSucceedsIff(lx: Lexicon, s: string, i: nat)
    ensures LexFrom(lx, s, i).Ok? <==> forall p: nat :: Scanned(lx, s, i, p) && p < |s| ==> !FailsAt(lx, s, p)
    decreases |s| - i
  {
    if i < |s| {
      var j := StepEnd(lx, s, i);
      StepOutcome(lx, s, i);
      LexFromSucceedsIff(lx, s, j);
      assert forall p: nat :: Scanned(lx, s, i, p) <==> p == i || Scanned(lx, s, j, p);
    }
  }

  /** Tokenizing succeeds iff no position the scan steps to holds a failing step. */
  lemma LexSucceedsIff(lx: Lexicon, input: string)
    ensures Lex(lx, input).Ok? <==> forall p: nat :: Scanned(lx, input, 0, p) && p < |input| ==> !FailsAt(lx, input, p)
  {
    LexFromSucceedsIff(lx, input, 0);
  }

  /** A failed scan reports the first failing step it reaches. */
  lemma {:induction false} LexFromFirstFailure(lx: Lexicon, s: string, i: nat)
    requires LexFrom(lx, s, i).Err?
    ensures exists p: nat :: && Scanned(lx, s, i, p) && p < |s| && FailsAt(lx, s, p)
                        && LexFrom(lx, s, i).error == ErrorAt(s, p)
                        && forall q: nat :: Scanned(lx, s, i, q) && q < p ==> !FailsAt(lx, s, q)
    decreases |s| - i
  {
    StepOutcome(lx, s, i);
    ScannedAfter(lx, s, i);
    if FailsAt(lx, s, i) {
      assert Scanned(lx, s, i, i);
    } else {
      var j := StepEnd(lx, s, i);
      LexFromFirstFailure(lx, s, j);
      var p: nat :| && Scanned(lx, s, j, p) && p < |s| && FailsAt(lx, s, p)
               && LexFrom(lx, s, j).error == ErrorAt(s, p)
               && forall q: nat :: Scanned(lx, s, j, q) && q < p ==> !FailsAt(lx, s, q);
      assert Scanned(lx, s, i, p);
      assert forall q: nat :: Scanned(lx, s, i, q) <==> q == i || Scanned(lx, s, j, q);
    }
  }

  /** Tokenizing fails with the error of the first failing step the scan reaches. */
  lemma LexFirstFailure(lx: Lexicon, input: string)
    requires Lex(lx, input).Err?
    ensures exists p: nat :: && Scanned(lx, input, 0, p) && p < |input| && FailsAt(lx, input, p)
                        && Lex(lx, input).error == ErrorAt(input, p)
                        && forall q: nat :: Scanned(lx, input, 0, q) && q < p ==> !FailsAt(lx, input, q)
  {
    LexFromFirstFailure(lx, input, 0);
  }

  // ---------------------------------------------------------------------------
  // Examples, over the tables of src/lexer/constants.ts extended with the
  // keywords and symbols backend/src/parser/parser.ts reads

  const DESIGN_LEXICON: Lexicon := Lexicon(
    ["print", "if", "else", "while", "let", "return", "break", "continue", "fn", "true", "false"],
    ["+", "-", "*", "/", "=", ";", "(", ")", "{", "}", "[", "]", ",", ".", ">", "<", "!"],
    ["==", "!=", ">=", "<=", "&&", "||"])

  lemma DesignLexiconSeparates()
    ensures LexiconSeparates(DESIGN_LEXICON)
  {
    var multi := DESIGN_LEXICON.multiCharSymbols;
    forall m | m in multi && |m| == 2 ensures !IsWhitespace(m[1]) && m[1] != '/' {
      assert m[1] in "=&|";
    }
  }

  /** No symbol of the design tables starts with a letter, digit or `_`. */
  lemma DesignWordCharIsNoSymbol(c: char, t: string)
    requires IsWordChar(c) && |t| > 0 && t[0] == c
    ensures [c] !in DESIGN_LEXICON.symbols && t !in DESIGN_LEXICON.multiCharSymbols
  {
    var syms, multi := DESIGN_LEXICON.symbols, DESIGN_LEXICON.multiCharSymbols;
    forall k | 0 <= k < |syms| ensures syms[k] != [c] {
      assert !IsWordChar(syms[k][0]);
    }
    forall k | 0 <= k < |multi| ensures multi[k] != t {
      assert !IsWordChar(multi[k][0]);
    }
  }

  /** Every keyword of the design tables is at least two characters long. */
  lemma DesignKeywordsAreLong(w: string)
    requires |w| < 2
    ensures w !in DESIGN_LEXICON.keywords
  {
    var kws := DESIGN_LEXICON.keywords;
    forall k | 0 <= k < |kws| ensures kws[k] != w {
      assert |kws[k]| >= 2;
    }
  }

  /** Under the design tables a one-character word is an identifier token. */
  lemma DesignLetterStep(s: string, i: nat)
    requires i < |s| && IsWordStart(s[i]) && (i + 1 == |s| || !IsWordChar(s[i + 1]))
    ensures LexFrom(DESIGN_LEXICON, s, i) == Prepend([Token(Identifier, [s[i]])], LexFrom(DESIGN_LEXICON, s, i + 1))
  {
    assert s[i..i + 1] == [s[i]];
    DesignWordCharIsNoSymbol(s[i], TwoChar(s, i));
    DesignKeywordsAreLong([s[i]]);
    WordStep(DESIGN_LEXICON, s, i, i + 1);
  }

  lemma ExampleTwoCharFirstSuffix(s: string)
    requires s == "a==b"
    ensures LexFrom(DESIGN_LEXICON, s, 1) == Ok([Token(Symbol, "=="), Token(Identifier, "b")])
  {
    var lx := DESIGN_LEXICON;
    var eq, b := Token(Symbol, "=="), Token(Identifier, "b");
    assert LexFrom(lx, s, 3) == Ok([b]) by {
      assert LexFrom(lx, s, 4) == Ok([]);
      DesignLetterStep(s, 3);
      assert [b] + [] == [b];
    }
    assert LexFrom(lx, s, 1) == Prepend([eq], LexFrom(lx, s, 3)) by {
      assert TwoChar(s, 1) == "==";
      MultiCharStep(lx, s, 1);
    }
    assert [eq] + [b] == [eq, b];
  }

  /** `==` is one symbol, not two `=`. */
  lemma ExampleTwoCharFirst(s: string)
    requires s == "a==b"
    ensures Lex(DESIGN_LEXICON, s) == Ok([Token(Identifier, "a"), Token(Symbol, "=="), Token(Identifier, "b")])
  {
    var lx := DESIGN_LEXICON;
    var a, eq, b := Token(Identifier, "a"), Token(Symbol, "=="), Token(Identifier, "b");
    ExampleTwoCharFirstSuffix(s);
    DesignLetterStep(s, 0);
    assert [a] + [eq, b] == [a, eq, b];
  }

  lemma ExampleCommentSkip(s: string)
    requires s == "x // c\ny"
    ensures LexFrom(DESIGN_LEXICON, s, 1) == LexFrom(DESIGN_LEXICON, s, 7)
  {
    var lx := DESIGN_LEXICON;
    assert LexFrom(lx, s, 2) == LexFrom(lx, s, 6) by {
      assert s[2..6] == "// c" && s[6] == '\n';
      CommentStep(lx, s, 2, 6);
    }
    SpaceStep(lx, s, 6);
    SpaceStep(lx, s, 1);
  }

  lemma ExampleCommentSuffix(s: string)
    requires s == "x // c\ny"
    ensures LexFrom(DESIGN_LEXICON, s, 1) == Ok([Token(Identifier, "y")])
  {
    var lx := DESIGN_LEXICON;
    var y := Token(Identifier, "y");
    assert LexFrom(lx, s, 8) == Ok([]);
    DesignLetterStep(s, 7);
    assert [y] + [] == [y];
    ExampleCommentSkip(s);
  }

  /** A comment is dropped up to the newline; what follows it is scanned. */
  lemma ExampleComment(s: string)
    requires s == "x // c\ny"
    ensures Lex(DESIGN_LEXICON, s) == Ok([Token(Identifier, "x"), Token(Identifier, "y")])
  {
    var x, y := Token(Identifier, "x"), Token(Identifier, "y");
    ExampleCommentSuffix(s);
    DesignLetterStep(s, 0);
    assert [x] + [y] == [x, y];
  }

  /** A numeral with two dots is rejected whole, although `.` is a symbol. */
  lemma ExampleTwoDots(s: string)
    requires s == "1.2.3"
    ensures Lex(DESIGN_LEXICON, s) == Err(InvalidNumberFormat("1.2.3"))
  {
    var lx := DESIGN_LEXICON;
    assert s[0..5] == s;
    assert DotCount(s) == 2;
    DesignWordCharIsNoSymbol(s[0], TwoChar(s, 0));
    NumeralStep(lx, s, 0, 5);
  }
}
