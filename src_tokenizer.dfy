/**
 * The first-generation tokenizer (src/lexer/tokenizer.ts): words are runs of
 * letters only, numerals are runs of digits and dots, symbols are single
 * characters, and there are no comments.
 */
module SrcTokenizer {
  import opened Wrappers
  import opened Chars
  import opened Tokens

  datatype LexError =
    | UnexpectedCharacter(c: char)
    | InvalidNumberFormat(text: string)

  /** A word is tagged `keyword` exactly when it is listed in KEYWORDS. */
  function WordKind(word: string): (k: TokenKind)
    ensures k == Keyword <==> word in KEYWORDS
    ensures k == Keyword || k == Identifier
  {
    if word in KEYWORDS then Keyword else Identifier
  }

  /**
   * The tokens of `input[i..]`, scanning left to right: the specification the
   * cursor loop of `Tokenize` is proved against.
   */
  function LexFrom(input: string, i: nat): (r: Result<seq<Token>, LexError>)
    requires i <= |input|
    ensures r.Ok? ==> |r.value| <= |input| - i
    decreases |input| - i
  {
    if i == |input| then Ok([])
    else if IsWhitespace(input[i]) then LexFrom(input, i + 1)
    else if IsLetter(input[i]) then
      var j := RunEnd(input, i, IsLetter);
      Prepend([Token(WordKind(input[i..j]), input[i..j])], LexFrom(input, j))
    else if IsDigit(input[i]) then
      var j := RunEnd(input, i, IsNumeralChar);
      if DotCount(input[i..j]) > 1 then Err(InvalidNumberFormat(input[i..j]))
      else Prepend([Token(Number, input[i..j])], LexFrom(input, j))
    else if [input[i]] in SYMBOLS then
      Prepend([Token(Symbol, [input[i]])], LexFrom(input, i + 1))
    else
      Err(UnexpectedCharacter(input[i]))
  }

  /** Every token covers at least one character, so there are never more tokens than characters. */
  function Lex(input: string): (r: Result<seq<Token>, LexError>)
    ensures r.Ok? ==> |r.value| <= |input|
  {
    LexFrom(input, 0)
  }

  // One lemma per branch of the scan, each stating what the branch contributes.

  lemma SpaceStep(s: string, i: nat)
    requires i < |s| && IsWhitespace(s[i])
    ensures LexFrom(s, i) == LexFrom(s, i + 1)
  {
  }

  lemma BadCharacterStep(s: string, i: nat)
    requires i < |s| && !IsWhitespace(s[i]) && !IsLetter(s[i]) && !IsDigit(s[i]) && [s[i]] !in SYMBOLS
    ensures LexFrom(s, i) == Err(UnexpectedCharacter(s[i]))
  {
  }

  lemma SymbolStep(s: string, i: nat)
    requires i < |s| && !IsWhitespace(s[i]) && !IsLetter(s[i]) && !IsDigit(s[i]) && [s[i]] in SYMBOLS
    ensures LexFrom(s, i) == Prepend([Token(Symbol, [s[i]])], LexFrom(s, i + 1))
  {
  }

  /** Maximal munch for words: a word ends at the first character that is not a letter. */
  lemma WordStep(s: string, i: nat, j: nat)
    requires i < |s| && IsLetter(s[i])
    requires i < j <= |s| && (forall k :: i <= k < j ==> IsLetter(s[k])) && (j == |s| || !IsLetter(s[j]))
    ensures LexFrom(s, i) == Prepend([Token(WordKind(s[i..j]), s[i..j])], LexFrom(s, j))
  {
    RunEndUnique(s, i, IsLetter, j);
  }

  /** Maximal munch for numerals: a numeral ends at the first character that is neither digit nor dot. */
  lemma NumeralStep(s: string, i: nat, j: nat)
    requires i < |s| && !IsLetter(s[i]) && IsDigit(s[i])
    requires i < j <= |s|
    requires forall k :: i <= k < j ==> IsNumeralChar(s[k])
    requires j == |s| || !IsNumeralChar(s[j])
    ensures LexFrom(s, i) ==
      if DotCount(s[i..j]) > 1 then Err(InvalidNumberFormat(s[i..j]))
      else Prepend([Token(Number, s[i..j])], LexFrom(s, j))
  {
    RunEndUnique(s, i, IsNumeralChar, j);
  }

  /** The word loop: collect letters. */
  method ReadWord(input: string, cursor: nat) returns (word: string, next: nat)
    requires cursor <= |input|
    ensures next == RunEnd(input, cursor, IsLetter) && word == input[cursor..next]
  {
    word, next := "", cursor;
    while next < |input| && IsLetter(input[next])
      invariant cursor <= next <= |input|
      invariant word == input[cursor..next]
      invariant forall k :: cursor <= k < next ==> IsLetter(input[k])
    {
      word := word + [input[next]];
      next := next + 1;
    }
    RunEndUnique(input, cursor, IsLetter, next);
  }

  /** The numeral loop: collect digits and dots. */
  method ReadNumeral(input: string, cursor: nat) returns (number: string, next: nat)
    requires cursor <= |input|
    ensures next == RunEnd(input, cursor, IsNumeralChar) && number == input[cursor..next]
  {
    number, next := "", cursor;
    while next < |input| && (IsDigit(input[next]) || input[next] == '.')
      invariant cursor <= next <= |input|
      invariant number == input[cursor..next]
      invariant forall k :: cursor <= k < next ==> IsNumeralChar(input[k])
    {
      number := number + [input[next]];
      next := next + 1;
    }
    RunEndUnique(input, cursor, IsNumeralChar, next);
  }

  /** `tokenize`: the cursor loop, with the inner loops that accumulate a word or a numeral. */
  method Tokenize(input: string) returns (r: Result<seq<Token>, LexError>)
    ensures r == Lex(input)
  {
    var tokens: seq<Token> := [];
    var cursor := 0;
    assert Prepend(tokens, LexFrom(input, cursor)) == LexFrom(input, 0) by {
      if LexFrom(input, 0).Ok? { assert [] + LexFrom(input, 0).value == LexFrom(input, 0).value; }
    }
    while cursor < |input|
      invariant cursor <= |input|
      invariant Lex(input) == Prepend(tokens, LexFrom(input, cursor))
      decreases |input| - cursor
    {
      var c := input[cursor];

      if IsWhitespace(c) {
        SpaceStep(input, cursor);
        cursor := cursor + 1;
        continue;
      }

      if IsLetter(c) {
        ghost var start := cursor;
        var word;
        word, cursor := ReadWord(input, cursor);
        WordStep(input, start, cursor);
        var kind := WordKind(word);
        PrependStep(Lex(input), tokens, LexFrom(input, start), [Token(kind, word)], LexFrom(input, cursor));
        tokens := tokens + [Token(kind, word)];
        continue;
      }

      if IsDigit(c) {
        ghost var start := cursor;
        var number;
        number, cursor := ReadNumeral(input, cursor);
        NumeralStep(input, start, cursor);
        if DotCount(number) > 1 {
          return Err(InvalidNumberFormat(number));
        }
        PrependStep(Lex(input), tokens, LexFrom(input, start), [Token(Number, number)], LexFrom(input, cursor));
        tokens := tokens + [Token(Number, number)];
        continue;
      }

      if [c] in SYMBOLS {
        SymbolStep(input, cursor);
        PrependStep(Lex(input), tokens, LexFrom(input, cursor), [Token(Symbol, [c])], LexFrom(input, cursor + 1));
        tokens := tokens + [Token(Symbol, [c])];
        cursor := cursor + 1;
        continue;
      }

      BadCharacterStep(input, cursor);
      return Err(UnexpectedCharacter(c));
    }
    assert tokens + [] == tokens;
    return Ok(tokens);
  }

  // ---------------------------------------------------------------------------
  // What a successful scan produces

  /** `s` with every whitespace character removed. */
  function Unspaced(s: string): string
  {
    if s == [] then [] else (if IsWhitespace(s[0]) then [] else [s[0]]) + Unspaced(s[1..])
  }

  lemma {:induction false} UnspacedRun(s: string, i: nat, j: nat)
    requires i <= j <= |s|
    requires forall k :: i <= k < j ==> !IsWhitespace(s[k])
    ensures Unspaced(s[i..]) == s[i..j] + Unspaced(s[j..])
    decreases j - i
  {
    if i < j {
      assert s[i..][1..] == s[i + 1..];
      UnspacedRun(s, i + 1, j);
      assert s[i..j] == [s[i]] + s[i + 1..j];
    }
  }

  /** A non-empty run of letters. */
  predicate IsWord(w: string)
  {
    |w| > 0 && forall k :: 0 <= k < |w| ==> IsLetter(w[k])
  }

  /** The shape of every token this tokenizer emits. */
  predicate WellFormed(t: Token)
  {
    match t.kind
    case Identifier => IsWord(t.value) && t.value !in KEYWORDS
    case Keyword => IsWord(t.value) && t.value in KEYWORDS
    case Number => IsNumeral(t.value)
    case Symbol => t.value in SYMBOLS
  }

  /**
   * One step of a successful scan from `i`: the tokens `ts` found there, which
   * account for the unspaced text up to `j`, where the scan resumes.
   */
  predicate ScanStep(input: string, i: nat, ts: seq<Token>, j: nat)
  {
    && i < j <= |input| && LexFrom(input, i).Ok? && LexFrom(input, j).Ok?
    && LexFrom(input, i).value == ts + LexFrom(input, j).value
    && Values(ts) + Unspaced(input[j..]) == Unspaced(input[i..])
    && (forall t :: t in ts ==> WellFormed(t))
  }

  /** One step of a successful scan: the token found at `i` and where the scan resumes. */
  lemma LexFromStep(input: string, i: nat) returns (ts: seq<Token>, j: nat)
    requires i < |input|
    requires LexFrom(input, i).Ok?
    ensures ScanStep(input, i, ts, j)
  {
    if IsWhitespace(input[i]) {
      ts, j := StepSpace(input, i);
    } else if IsLetter(input[i]) {
      ts, j := StepWord(input, i);
    } else if IsDigit(input[i]) {
      ts, j := StepNumeral(input, i);
    } else {
      ts, j := StepSymbol(input, i);
    }
  }

  lemma StepSpace(input: string, i: nat) returns (ts: seq<Token>, j: nat)
    requires i < |input| && IsWhitespace(input[i])
    requires LexFrom(input, i).Ok?
    ensures ScanStep(input, i, ts, j)
  {
    ts, j := [], i + 1;
    assert input[i..][1..] == input[i + 1..];
  }

  lemma StepSymbol(input: string, i: nat) returns (ts: seq<Token>, j: nat)
    requires i < |input| && !IsWhitespace(input[i]) && !IsLetter(input[i]) && !IsDigit(input[i])
    requires LexFrom(input, i).Ok?
    ensures ScanStep(input, i, ts, j)
  {
    ts, j := [Token(Symbol, [input[i]])], i + 1;
    assert [input[i]] in SYMBOLS;
    SymbolStep(input, i);
    TokenText(input, i, j, ts[0]);
  }

  lemma StepWord(input: string, i: nat) returns (ts: seq<Token>, j: nat)
    requires i < |input| && IsLetter(input[i])
    requires LexFrom(input, i).Ok?
    ensures ScanStep(input, i, ts, j)
  {
    j := RunEnd(input, i, IsLetter);
    var t := Token(WordKind(input[i..j]), input[i..j]);
    ts := [t];
    WordStep(input, i, j);
    TokenText(input, i, j, t);
    assert WellFormed(t) by {
      assert IsWord(t.value);
    }
  }

  lemma StepNumeral(input: string, i: nat) returns (ts: seq<Token>, j: nat)
    requires i < |input| && IsDigit(input[i])
    requires LexFrom(input, i).Ok?
    ensures ScanStep(input, i, ts, j)
  {
    j := RunEnd(input, i, IsNumeralChar);
    var t := Token(Number, input[i..j]);
    ts := [t];
    NumeralStep(input, i, j);
    TokenText(input, i, j, t);
    assert WellFormed(t) by {
      assert IsNumeral(t.value);
    }
  }

  /** A token read from `s[i..j]`, which holds no whitespace, accounts for that text. */
  lemma TokenText(s: string, i: nat, j: nat, t: Token)
    requires i < j <= |s| && t.value == s[i..j]
    requires forall k :: i <= k < j ==> !IsWhitespace(s[k])
    ensures Values([t]) + Unspaced(s[j..]) == Unspaced(s[i..])
  {
    UnspacedRun(s, i, j);
    assert [t][1..] == [];
  }

  lemma {:induction false} LexFromOk(input: string, i: nat)
    requires i <= |input|
    requires LexFrom(input, i).Ok?
    ensures Values(LexFrom(input, i).value) == Unspaced(input[i..])
    ensures forall t :: t in LexFrom(input, i).value ==> WellFormed(t)
    decreases |input| - i
  {
    if i < |input| {
      var ts, j := LexFromStep(input, i);
      LexFromOk(input, j);
      ValuesAppend(ts, LexFrom(input, j).value);
    }
  }

  /**
   * On success the token texts, in order, spell the input with its whitespace
   * removed, and every token has the shape its kind promises.
   */
  lemma LexOk(input: string)
    requires Lex(input).Ok?
    ensures Values(Lex(input).value) == Unspaced(input)
    ensures forall t :: t in Lex(input).value ==> WellFormed(t)
  {
    LexFromOk(input, 0);
    assert input[0..] == input;
  }

  // ---------------------------------------------------------------------------
  // When the scan fails

  /** A character that can appear in tokenizable input (a dot only inside a numeral). */
  predicate Allowed(c: char)
  {
    IsWhitespace(c) || IsLetter(c) || IsNumeralChar(c) || [c] in SYMBOLS
  }

  /** `a` starts a maximal run of digits and dots. */
  predicate NumeralRunStart(s: string, a: nat)
  {
    a < |s| && IsNumeralChar(s[a]) && (a == 0 || !IsNumeralChar(s[a - 1]))
  }

  /**
   * `s[i..]` holds only allowed characters, and every maximal run of digits and
   * dots in it starts with a digit and holds at most one dot.
   */
  predicate LexableFrom(s: string, i: nat)
    requires i <= |s|
  {
    && (forall k :: i <= k < |s| ==> Allowed(s[k]))
    && (forall a :: i <= a < |s| && NumeralRunStart(s, a) ==>
          IsDigit(s[a]) && DotCount(s[a..RunEnd(s, a, IsNumeralChar)]) <= 1)
  }

  /** Position `i` does not split a run of digits and dots. */
  predicate AtBoundary(s: string, i: nat)
    requires i <= |s|
  {
    i == 0 || i == |s| || !IsNumeralChar(s[i - 1]) || !IsNumeralChar(s[i])
  }

  lemma LexableSkip(s: string, i: nat, j: nat)
    requires i <= j <= |s|
    requires forall k :: i <= k < j ==> Allowed(s[k]) && !IsNumeralChar(s[k])
    ensures LexableFrom(s, i) <==> LexableFrom(s, j)
  {
  }

  lemma LexableNumeral(s: string, i: nat)
    requires i < |s| && IsDigit(s[i]) && AtBoundary(s, i)
    ensures LexableFrom(s, i) <==>
      DotCount(s[i..RunEnd(s, i, IsNumeralChar)]) <= 1 && LexableFrom(s, RunEnd(s, i, IsNumeralChar))
  {
    var j := RunEnd(s, i, IsNumeralChar);
    assert NumeralRunStart(s, i);
    assert forall a :: i < a < j ==> !NumeralRunStart(s, a);
  }

  lemma {:induction false} LexFromSucceedsIff(s: string, i: nat)
    requires i <= |s| && AtBoundary(s, i)
    ensures LexFrom(s, i).Ok? <==> LexableFrom(s, i)
    decreases |s| - i
  {
    if i < |s| {
      var j, decided, fine := SucceedsStep(s, i);
      if !decided {
        LexFromSucceedsIff(s, j);
      }
    }
  }

  /**
   * From `i`, both the scan and the condition come down to the token at `i`
   * being `fine` and to the rest from `j`, a boundary.
   */
  predicate Reduces(s: string, i: nat, j: nat, fine: bool)
  {
    && i < j <= |s| && AtBoundary(s, j)
    && (LexFrom(s, i).Ok? <==> fine && LexFrom(s, j).Ok?)
    && (LexableFrom(s, i) <==> fine && LexableFrom(s, j))
  }

  /** One step of the scan from `i`, for success: either it decides the outcome, or it reduces it to a later `j`. */
  lemma SucceedsStep(s: string, i: nat) returns (j: nat, decided: bool, fine: bool)
    requires i < |s| && AtBoundary(s, i)
    ensures decided ==> (LexFrom(s, i).Ok? <==> LexableFrom(s, i))
    ensures !decided ==> Reduces(s, i, j, fine)
  {
    decided, fine := false, true;
    if IsWhitespace(s[i]) {
      j := i + 1;
      SpaceReduces(s, i);
    } else if IsLetter(s[i]) {
      j := WordReduces(s, i);
    } else if IsDigit(s[i]) {
      j, fine := NumeralReduces(s, i);
    } else if [s[i]] in SYMBOLS {
      j := i + 1;
      SymbolReduces(s, i);
    } else {
      j, decided := i, true;
      BadCharacterDecides(s, i);
    }
  }

  /** A whitespace character is skipped. */
  lemma SpaceReduces(s: string, i: nat)
    requires i < |s| && AtBoundary(s, i) && IsWhitespace(s[i])
    ensures Reduces(s, i, i + 1, true)
  {
    SpaceStep(s, i);
    SkipReduces(s, i, i + 1);
  }

  /** A word is always a fine token. */
  lemma WordReduces(s: string, i: nat) returns (j: nat)
    requires i < |s| && AtBoundary(s, i) && IsLetter(s[i])
    ensures Reduces(s, i, j, true)
  {
    j := RunEnd(s, i, IsLetter);
    WordStep(s, i, j);
    SkipReduces(s, i, j);
  }

  /** A symbol is always a fine token. */
  lemma SymbolReduces(s: string, i: nat)
    requires i < |s| && AtBoundary(s, i) && !IsWhitespace(s[i]) && !IsLetter(s[i]) && !IsDigit(s[i])
    requires [s[i]] in SYMBOLS
    ensures Reduces(s, i, i + 1, true)
  {
    SymbolStep(s, i);
    assert !IsNumeralChar(s[i]) by {
      SymbolCharactersAreDistinct();
    }
    SkipReduces(s, i, i + 1);
  }

  /** Any other character, a stray `.` included, fails both the scan and the condition. */
  lemma BadCharacterDecides(s: string, i: nat)
    requires i < |s| && AtBoundary(s, i) && !IsWhitespace(s[i]) && !IsLetter(s[i]) && !IsDigit(s[i])
    requires [s[i]] !in SYMBOLS
    ensures LexFrom(s, i).Ok? <==> LexableFrom(s, i)
  {
    BadCharacterStep(s, i);
    if s[i] == '.' {
      assert NumeralRunStart(s, i);
    } else {
      assert !Allowed(s[i]);
    }
  }

  /** Skipping allowed text that holds no digit or dot reduces the question to what follows it. */
  lemma SkipReduces(s: string, i: nat, j: nat)
    requires i < j <= |s| && (LexFrom(s, i).Ok? <==> LexFrom(s, j).Ok?)
    requires forall k :: i <= k < j ==> Allowed(s[k]) && !IsNumeralChar(s[k])
    ensures Reduces(s, i, j, true)
  {
    LexableSkip(s, i, j);
  }

  /** A numeral is fine when it holds one dot at most. */
  lemma NumeralReduces(s: string, i: nat) returns (j: nat, fine: bool)
    requires i < |s| && IsDigit(s[i]) && AtBoundary(s, i)
    ensures Reduces(s, i, j, fine)
  {
    j := RunEnd(s, i, IsNumeralChar);
    fine := DotCount(s[i..j]) <= 1;
    NumeralStep(s, i, j);
    LexableNumeral(s, i);
  }

  /**
   * Tokenizing fails exactly when the input holds a character that is not
   * whitespace, a letter, a digit, a dot or a symbol, or a run of digits and
   * dots that starts with a dot or holds more than one dot.
   */
  lemma LexSucceedsIff(input: string)
    ensures Lex(input).Ok? <==> LexableFrom(input, 0)
  {
    LexFromSucceedsIff(input, 0);
  }

  /**
   * What an error found in `input[i..]` reports: a character that is not
   * whitespace, a letter, a digit or a symbol, or a whole run of digits and
   * dots that starts with a digit and holds more than one dot.
   */
  predicate Explains(input: string, i: nat, e: LexError)
    requires i <= |input|
  {
    match e
    case UnexpectedCharacter(c) =>
      c in input[i..] && !IsWhitespace(c) && !IsLetter(c) && !IsDigit(c) && [c] !in SYMBOLS
    case InvalidNumberFormat(t) =>
      && |t| > 0 && IsDigit(t[0]) && DotCount(t) > 1
      && (forall k :: 0 <= k < |t| ==> IsNumeralChar(t[k]))
      && exists a :: i <= a <= |input| && OccursAt(input, t, a)
  }

  /** An explanation found further on also explains the error from an earlier position. */
  lemma ExplainsEarlier(input: string, i: nat, j: nat, e: LexError)
    requires i <= j <= |input| && Explains(input, j, e)
    ensures Explains(input, i, e)
  {
    if e.UnexpectedCharacter? {
      assert input[j..] == input[i..][j - i..];
    }
  }

  /** What an error reports: the offending character, or the whole malformed numeral. */
  lemma {:induction false} LexFromError(input: string, i: nat)
    requires i <= |input| && LexFrom(input, i).Err?
    ensures Explains(input, i, LexFrom(input, i).error)
    decreases |input| - i
  {
    var j, found := ErrorStep(input, i);
    if !found {
      LexFromError(input, j);
      ExplainsEarlier(input, i, j, LexFrom(input, i).error);
    }
  }

  /** The error of a failing scan is either found at `i` or is the error of the scan from a later `j`. */
  lemma ErrorStep(input: string, i: nat) returns (j: nat, found: bool)
    requires i <= |input| && LexFrom(input, i).Err?
    ensures found ==> Explains(input, i, LexFrom(input, i).error)
    ensures !found ==> i < j <= |input| && LexFrom(input, j) == LexFrom(input, i)
  {
    var c := input[i];
    found := false;
    if IsWhitespace(c) {
      j := i + 1;
      SpaceStep(input, i);
    } else if IsLetter(c) {
      j := RunEnd(input, i, IsLetter);
      WordStep(input, i, j);
    } else if IsDigit(c) {
      j, found := NumeralErrorStep(input, i);
    } else if [c] in SYMBOLS {
      j := i + 1;
      SymbolStep(input, i);
    } else {
      j, found := i, true;
      BadCharacterError(input, i);
    }
  }

  /** `ErrorStep` at a digit: the numeral is the error, or the error comes after it. */
  lemma NumeralErrorStep(input: string, i: nat) returns (j: nat, found: bool)
    requires i < |input| && IsDigit(input[i]) && LexFrom(input, i).Err?
    ensures found ==> Explains(input, i, LexFrom(input, i).error)
    ensures !found ==> i < j <= |input| && LexFrom(input, j) == LexFrom(input, i)
  {
    j := RunEnd(input, i, IsNumeralChar);
    NumeralStep(input, i, j);
    found := DotCount(input[i..j]) > 1;
    if found {
      assert OccursAt(input, input[i..j], i);
    }
  }

  /** `ErrorStep` at a character no token starts with: the error is found there. */
  lemma BadCharacterError(input: string, i: nat)
    requires i < |input| && LexFrom(input, i).Err?
    requires !IsWhitespace(input[i]) && !IsLetter(input[i]) && !IsDigit(input[i]) && [input[i]] !in SYMBOLS
    ensures Explains(input, i, LexFrom(input, i).error)
  {
    BadCharacterStep(input, i);
    assert input[i] == input[i..][0];
  }

  // ---------------------------------------------------------------------------
  // Examples

  /** A run of letters on its own is one token, tagged by KEYWORDS. */
  lemma WordScansAsOneToken(w: string)
    requires IsWord(w)
    ensures Lex(w) == Ok([Token(WordKind(w), w)])
  {
    WordStep(w, 0, |w|);
    assert w[0..|w|] == w;
    assert [Token(WordKind(w), w)] + [] == [Token(WordKind(w), w)];
  }

  /** Every keyword can be produced by this letters-only scan, and is tagged as a keyword. */
  lemma KeywordsScanAsKeywords(w: string)
    requires w in KEYWORDS
    ensures Lex(w) == Ok([Token(Keyword, w)])
  {
    KeywordsAreLowerCaseWords();
    WordScansAsOneToken(w);
  }

  /** Every keyword is at least two letters long. */
  lemma ShortWordsAreNotKeywords(w: string)
    requires |w| < 2
    ensures w !in KEYWORDS
  {
    forall k | 0 <= k < |KEYWORDS| ensures KEYWORDS[k] != w {
      assert |KEYWORDS[k]| >= 2;
    }
  }

  /** A one-letter word is an identifier token. */
  lemma LetterStep(s: string, i: nat)
    requires i < |s| && IsLetter(s[i]) && (i + 1 == |s| || !IsLetter(s[i + 1]))
    ensures LexFrom(s, i) == Prepend([Token(Identifier, [s[i]])], LexFrom(s, i + 1))
  {
    assert s[i..i + 1] == [s[i]];
    ShortWordsAreNotKeywords([s[i]]);
    WordStep(s, i, i + 1);
  }

  lemma ExampleLetTail(s: string)
    requires s == "let x = 5;"
    ensures LexFrom(s, 8) == Ok([Token(Number, "5"), Token(Symbol, ";")])
  {
    var five, semi := Token(Number, "5"), Token(Symbol, ";");
    assert LexFrom(s, 9) == Ok([semi]) by {
      assert LexFrom(s, 10) == Ok([]);
      assert SYMBOLS[5] == ";";
      SymbolStep(s, 9);
      assert [semi] + [] == [semi];
    }
    assert s[8..9] == "5" && DotCount("5") == 0;
    NumeralStep(s, 8, 9);
    assert [five] + [semi] == [five, semi];
  }

  lemma ExampleLetMiddle(s: string)
    requires s == "let x = 5;"
    ensures LexFrom(s, 5) == Ok([Token(Symbol, "="), Token(Number, "5"), Token(Symbol, ";")])
  {
    var eq, five, semi := Token(Symbol, "="), Token(Number, "5"), Token(Symbol, ";");
    ExampleLetTail(s);
    SpaceStep(s, 7);
    assert SYMBOLS[4] == "=";
    SymbolStep(s, 6);
    assert [eq] + [five, semi] == [eq, five, semi];
    SpaceStep(s, 5);
  }

  lemma ExampleLetSuffix(s: string)
    requires s == "let x = 5;"
    ensures LexFrom(s, 4) == Ok([Token(Identifier, "x"), Token(Symbol, "="), Token(Number, "5"), Token(Symbol, ";")])
  {
    var x, eq, five, semi := Token(Identifier, "x"), Token(Symbol, "="), Token(Number, "5"), Token(Symbol, ";");
    ExampleLetMiddle(s);
    LetterStep(s, 4);
    assert [x] + [eq, five, semi] == [x, eq, five, semi];
  }

  lemma ExampleLetAfterWord(s: string)
    requires s == "let x = 5;"
    ensures LexFrom(s, 3) == Ok([Token(Identifier, "x"), Token(Symbol, "="), Token(Number, "5"), Token(Symbol, ";")])
  {
    ExampleLetSuffix(s);
    SpaceStep(s, 3);
  }

  lemma ExampleLetWord(s: string)
    requires s == "let x = 5;"
    ensures LexFrom(s, 0) == Prepend([Token(Keyword, "let")], LexFrom(s, 3))
  {
    assert s[0..3] == "let" && KEYWORDS[4] == "let";
    WordStep(s, 0, 3);
  }

  /** The example statement of the language description. */
  lemma ExampleLet(s: string)
    requires s == "let x = 5;"
    ensures Lex(s) == Ok([Token(Keyword, "let"), Token(Identifier, "x"),
      Token(Symbol, "="), Token(Number, "5"), Token(Symbol, ";")])
  {
    ExampleLetAfterWord(s);
    ExampleLetWord(s);
    var rest := [Token(Identifier, "x"), Token(Symbol, "="), Token(Number, "5"), Token(Symbol, ";")];
    assert [Token(Keyword, "let")] + rest == [Token(Keyword, "let"), Token(Identifier, "x"),
      Token(Symbol, "="), Token(Number, "5"), Token(Symbol, ";")];
  }

  /** Words are letters only: `x1` is an identifier followed by a numeral. */
  lemma ExampleLettersOnly(s: string)
    requires s == "x1"
    ensures Lex(s) == Ok([Token(Identifier, "x"), Token(Number, "1")])
  {
    assert s[1..2] == "1" && s[0..1] == "x";
    assert LexFrom(s, 2) == Ok([]);
    NumeralStep(s, 1, 2);
    assert [Token(Number, "1")] + [] == [Token(Number, "1")];
    LetterStep(s, 0);
    assert [Token(Identifier, "x")] + [Token(Number, "1")] == [Token(Identifier, "x"), Token(Number, "1")];
  }

  /** Symbols are single characters: `==` and `//` are two tokens each. */
  lemma ExampleSingleCharSymbols(s: string, t: string)
    requires s == "==" && t == "//"
    ensures Lex(s) == Ok([Token(Symbol, "="), Token(Symbol, "=")])
    ensures Lex(t) == Ok([Token(Symbol, "/"), Token(Symbol, "/")])
  {
    assert SYMBOLS[4] == "=" && SYMBOLS[3] == "/";
    var eq, sl := [Token(Symbol, "=")], [Token(Symbol, "/")];
    assert eq + [] == eq && sl + [] == sl;
    assert LexFrom(s, 2) == Ok([]);
    SymbolStep(s, 1);
    SymbolStep(s, 0);
    assert LexFrom(t, 2) == Ok([]);
    SymbolStep(t, 1);
    SymbolStep(t, 0);
    assert eq + eq == [Token(Symbol, "="), Token(Symbol, "=")];
    assert sl + sl == [Token(Symbol, "/"), Token(Symbol, "/")];
  }

  /** One dot makes a numeral. */
  lemma ExampleTrailingDot(s: string)
    requires s == "1."
    ensures Lex(s) == Ok([Token(Number, "1.")])
  {
    assert s[0..2] == "1.";
    assert LexFrom(s, 2) == Ok([]);
    NumeralStep(s, 0, 2);
    assert DotCount(s) == 1 by {
      assert s == ['1'] + ['.'];
    }
    assert [Token(Number, "1.")] + [] == [Token(Number, "1.")];
  }

  /** Two dots make an error, reported with the whole run. */
  lemma ExampleTwoDots(s: string)
    requires s == "1.2.3"
    ensures Lex(s) == Err(InvalidNumberFormat("1.2.3"))
  {
    assert s[0..5] == "1.2.3";
    NumeralStep(s, 0, 5);
    assert DotCount(s) == 2 by {
      assert s == ['1'] + ['.'] + ['2'] + ['.'] + ['3'];
    }
  }

  /** `_` is not a word character here. */
  lemma ExampleUnderscore(s: string)
    requires s == "x_1"
    ensures Lex(s) == Err(UnexpectedCharacter('_'))
  {
    MissingEntries();
    assert LexFrom(s, 1) == Err(UnexpectedCharacter('_')) by {
      assert ['_'] !in SYMBOLS;
    }
    WordStep(s, 0, 1);
  }
}
