/**
 * The second-generation parser (backend/src/parser/parser.ts): recursive
 * descent with one token of lookahead over a shared cursor `current`.
 * Binary expressions are flat and left-associative with no precedence;
 * primaries include prefix `-` and `!`, booleans, fn-expressions, numerals,
 * parentheses, array literals, calls and index access; statements add
 * declarations, return, let, break, continue, while, if/else, blocks, print
 * and (indexed) assignment.
 *
 * The functions `PExpr`, `PPrimary`, `PParams`, `PItems`, `PBlock`,
 * `PStatements`, `PStatement` and `Program` say, for a cursor position, what
 * the corresponding code of `parse` returns and where it leaves the cursor;
 * the methods of `Parser` are proved to do exactly that.
 */
module BackendParser {
  import opened Wrappers
  import opened Tokens
  import opened Numerals
  import opened BackendAst

  datatype ParseError =
      /** `expect` found another token, or none (`got == None`). */
    | Expected(kind: TokenKind, value: Option<string>, got: Option<Token>)
      /** `parsePrimary` found no primary here (`None`: at the end of the input). */
    | UnexpectedToken(got: Option<Token>)
      /** `parseStatement` found no statement starting with this token. */
    | UnrecognizedStatement(first: Token)
      /** A number token whose text is not a numeral. */
    | NotANumeral(text: string)

  /** A parsed item and the cursor position after it. */
  datatype Parsed<T> = Parsed(node: T, next: nat)

  /** The symbols that continue an expression, in the order the parser lists them. */
  const EXPRESSION_OPERATORS: seq<string> := ["+", "-", "*", "/", ">", "<", "==", "!=", ">=", "<=", "&&", "||"]

  /** The listed symbols are exactly the spellings of the twelve binary operators. */
  lemma OperatorList(v: string)
    ensures v in EXPRESSION_OPERATORS <==> OpFromSymbol(v).Some?
  {
    OperatorSpellings(v);
  }

  /** `tokens[i]`, which is `undefined` past the end. */
  function At(ts: seq<Token>, i: nat): (t: Option<Token>)
    ensures t.Some? <==> i < |ts|
    ensures t.Some? ==> t.value == ts[i]
  {
    if i < |ts| then Some(ts[i]) else None
  }

  /** `peek()?.value`: the text of the token at `i`, whatever its kind. */
  function ValueAt(ts: seq<Token>, i: nat): (v: Option<string>)
    ensures v.Some? <==> i < |ts|
    ensures v.Some? ==> v.value == ts[i].value
  {
    if i < |ts| then Some(ts[i].value) else None
  }

  predicate KeywordAt(ts: seq<Token>, i: nat, w: string)
  {
    i < |ts| && ts[i].kind == Keyword && ts[i].value == w
  }

  predicate SymbolAt(ts: seq<Token>, i: nat, v: string)
  {
    i < |ts| && ts[i].kind == Symbol && ts[i].value == v
  }

  /** The token at `j` is a symbol that continues an expression. */
  predicate OperatorAt(ts: seq<Token>, j: nat)
  {
    j < |ts| && ts[j].kind == Symbol && OpFromSymbol(ts[j].value).Some?
  }

  /** `expect(kind, value)` at `i`: the token there, if it has that kind and (when given) that text. */
  function ExpectAt(ts: seq<Token>, i: nat, kind: TokenKind, value: Option<string>): (r: Result<Parsed<Token>, ParseError>)
    ensures r.Ok? <==> i < |ts| && ts[i].kind == kind && (value.None? || ts[i].value == value.value)
    ensures r.Ok? ==> r.value == Parsed(ts[i], i + 1)
    ensures r.Err? ==> r.error == Expected(kind, value, At(ts, i))
  {
    if i < |ts| && ts[i].kind == kind && (value.None? || ts[i].value == value.value) then Ok(Parsed(ts[i], i + 1))
    else Err(Expected(kind, value, At(ts, i)))
  }

  /** Puts `xs` in front of a parsed list; an error passes through unchanged. */
  function PrependParsed<T>(xs: seq<T>, r: Result<Parsed<seq<T>>, ParseError>): (p: Result<Parsed<seq<T>>, ParseError>)
    ensures p.Ok? <==> r.Ok?
    ensures p.Ok? ==> p.value == Parsed(xs + r.value.node, r.value.next)
    ensures p.Err? ==> p == r
  {
    match r
    case Ok(v) => Ok(Parsed(xs + v.node, v.next))
    case Err(e) => Err(e)
  }

  lemma PrependParsedTwice<T>(xs: seq<T>, ys: seq<T>, r: Result<Parsed<seq<T>>, ParseError>)
    ensures PrependParsed(xs, PrependParsed(ys, r)) == PrependParsed(xs + ys, r)
  {
    if r.Ok? {
      assert xs + (ys + r.value.node) == (xs + ys) + r.value.node;
    }
  }

  /** After an item, an optional `,` is skipped. */
  function SkipComma(ts: seq<Token>, j: nat): (k: nat)
    requires j <= |ts|
    ensures j <= k <= |ts|
  {
    if ValueAt(ts, j) == Some(",") then j + 1 else j
  }

  // ---------------------------------------------------------------------------
  // What each inner function of `parse` returns

  /** `parseExpression` at `i`: a primary, then the loop over operator-primary pairs. */
  function PExpr(ts: seq<Token>, i: nat): (r: Result<Parsed<Node>, ParseError>)
    requires i <= |ts|
    ensures r.Ok? ==> i < r.value.next <= |ts|
    decreases |ts| - i, 2
  {
    var left :- PPrimary(ts, i);
    PExprTail(ts, left.node, left.next)
  }

  /**
   * The loop of `parseExpression` with `left` built so far and the cursor at
   * `j`: while an operator follows, it and the next primary fold into `left`.
   */
  function PExprTail(ts: seq<Token>, left: Node, j: nat): (r: Result<Parsed<Node>, ParseError>)
    requires j <= |ts|
    ensures r.Ok? ==> j <= r.value.next <= |ts|
    decreases |ts| - j, 2
  {
    if OperatorAt(ts, j) then
      var right :- PPrimary(ts, j + 1);
      PExprTail(ts, BinaryExpression(OpFromSymbol(ts[j].value).value, left, right.node), right.next)
    else
      Ok(Parsed(left, j))
  }

  /** `parsePrimary` at `i`. */
  function PPrimary(ts: seq<Token>, i: nat): (r: Result<Parsed<Node>, ParseError>)
    requires i <= |ts|
    ensures r.Ok? ==> i < r.value.next <= |ts|
    decreases |ts| - i, 1
  {
    if i == |ts| then Err(UnexpectedToken(None))
    else
      var t := ts[i];
      if t.kind == Symbol && UnaryFromSymbol(t.value).Some? then
        var argument :- PPrimary(ts, i + 1);
        Ok(Parsed(UnaryExpression(UnaryFromSymbol(t.value).value, argument.node), argument.next))
      else if t.kind == Keyword && t.value == "true" then
        Ok(Parsed(BooleanLiteral(true), i + 1))
      else if t.kind == Keyword && t.value == "false" then
        Ok(Parsed(BooleanLiteral(false), i + 1))
      else if t.kind == Keyword && t.value == "fn" then
        var open :- ExpectAt(ts, i + 1, Symbol, Some("("));
        var params :- PParams(ts, open.next);
        var close :- ExpectAt(ts, params.next, Symbol, Some(")"));
        var body :- PBlock(ts, close.next);
        Ok(Parsed(FunctionExpression(params.node, body.node), body.next))
      else if t.kind == Number then
        if IsNumeral(t.value) then Ok(Parsed(NumberLiteral(NumeralValue(t.value)), i + 1))
        else Err(NotANumeral(t.value))
      else if t.kind == Symbol && t.value == "(" then
        var e :- PExpr(ts, i + 1);
        var close :- ExpectAt(ts, e.next, Symbol, Some(")"));
        Ok(Parsed(e.node, close.next))
      else if t.kind == Symbol && t.value == "[" then
        var elements :- PItems(ts, i + 1, "]");
        var close :- ExpectAt(ts, elements.next, Symbol, Some("]"));
        Ok(Parsed(ArrayLiteral(elements.node), close.next))
      else if t.kind == TokenKind.Identifier then
        PName(ts, i)
      else
        Err(UnexpectedToken(Some(t)))
  }

  /** The identifier case of `parsePrimary`: a call, an index access, or the name alone. */
  function PName(ts: seq<Token>, i: nat): (r: Result<Parsed<Node>, ParseError>)
    requires i < |ts|
    ensures r.Ok? ==> i < r.value.next <= |ts|
    decreases |ts| - i, 0
  {
    var id := ts[i].value;
    if ValueAt(ts, i + 1) == Some("(") then
      var args :- PItems(ts, i + 2, ")");
      var close :- ExpectAt(ts, args.next, Symbol, Some(")"));
      Ok(Parsed(FunctionCall(id, args.node), close.next))
    else if ValueAt(ts, i + 1) == Some("[") then
      var index :- PExpr(ts, i + 2);
      var close :- ExpectAt(ts, index.next, Symbol, Some("]"));
      Ok(Parsed(IndexAccess(Node.Identifier(id), index.node), close.next))
    else
      Ok(Parsed(Node.Identifier(id), i + 1))
  }

  /** The parameter loop: names until `)`, each optionally followed by `,`. */
  function PParams(ts: seq<Token>, i: nat): (r: Result<Parsed<seq<string>>, ParseError>)
    requires i <= |ts|
    ensures r.Ok? ==> i <= r.value.next <= |ts|
    decreases |ts| - i, 0
  {
    if ValueAt(ts, i) == Some(")") then Ok(Parsed([], i))
    else
      var param :- ExpectAt(ts, i, TokenKind.Identifier, None);
      PrependParsed([param.node.value], PParams(ts, SkipComma(ts, param.next)))
  }

  /** The argument and element loops: expressions until `close`, each optionally followed by `,`. */
  function PItems(ts: seq<Token>, i: nat, close: string): (r: Result<Parsed<seq<Node>>, ParseError>)
    requires i <= |ts|
    ensures r.Ok? ==> i <= r.value.next <= |ts|
    decreases |ts| - i, 3
  {
    if ValueAt(ts, i) == Some(close) then Ok(Parsed([], i))
    else
      var item :- PExpr(ts, i);
      PrependParsed([item.node], PItems(ts, SkipComma(ts, item.next), close))
  }

  /** `parseBlock` at `i`: `{`, statements up to a `}`, and the `}`. */
  function PBlock(ts: seq<Token>, i: nat): (r: Result<Parsed<seq<Node>>, ParseError>)
    requires i <= |ts|
    ensures r.Ok? ==> i < r.value.next <= |ts|
    decreases |ts| - i, 0
  {
    var open :- ExpectAt(ts, i, Symbol, Some("{"));
    var body :- PStatements(ts, open.next);
    var close :- ExpectAt(ts, body.next, Symbol, Some("}"));
    Ok(Parsed(body.node, close.next))
  }

  /** The loop of `parseBlock`: statements while a token other than `}` follows. */
  function PStatements(ts: seq<Token>, i: nat): (r: Result<Parsed<seq<Node>>, ParseError>)
    requires i <= |ts|
    ensures r.Ok? ==> i <= r.value.next <= |ts|
    decreases |ts| - i, 3
  {
    if i < |ts| && ts[i].value != "}" then
      var s :- PStatement(ts, i);
      PrependParsed([s.node], PStatements(ts, s.next))
    else
      Ok(Parsed([], i))
  }

  /** `parseStatement` at `i`, which is only called on a token. */
  function PStatement(ts: seq<Token>, i: nat): (r: Result<Parsed<Node>, ParseError>)
    requires i < |ts|
    ensures r.Ok? ==> i < r.value.next <= |ts|
    decreases |ts| - i, 2
  {
    var t := ts[i];
    if t.kind == Keyword then
      PKeywordStatement(ts, i)
    else if t.kind == Symbol && t.value == "{" then
      var block :- PBlock(ts, i);
      Ok(Parsed(BlockStatement(block.node), block.next))
    else if t.kind == TokenKind.Identifier then
      PAssignment(ts, i)
    else
      Err(UnrecognizedStatement(t))
  }

  /**
   * The statements introduced by a keyword. `parseStatement` tests `{` between
   * `if` and `print`; as `{` is a symbol, testing it first or last is the same.
   */
  function PKeywordStatement(ts: seq<Token>, i: nat): (r: Result<Parsed<Node>, ParseError>)
    requires i < |ts| && ts[i].kind == Keyword
    ensures r.Ok? ==> i < r.value.next <= |ts|
    decreases |ts| - i, 0
  {
    var w := ts[i].value;
    if w == "fn" then
      var name :- ExpectAt(ts, i + 1, TokenKind.Identifier, None);
      var open :- ExpectAt(ts, name.next, Symbol, Some("("));
      var params :- PParams(ts, open.next);
      var close :- ExpectAt(ts, params.next, Symbol, Some(")"));
      var body :- PBlock(ts, close.next);
      Ok(Parsed(FunctionDeclaration(name.node.value, params.node, body.node), body.next))
    else if w == "return" then
      var value :- PExpr(ts, i + 1);
      var semi :- ExpectAt(ts, value.next, Symbol, Some(";"));
      Ok(Parsed(ReturnStatement(value.node), semi.next))
    else if w == "let" then
      var name :- ExpectAt(ts, i + 1, TokenKind.Identifier, None);
      var eq :- ExpectAt(ts, name.next, Symbol, Some("="));
      var value :- PExpr(ts, eq.next);
      var semi :- ExpectAt(ts, value.next, Symbol, Some(";"));
      Ok(Parsed(LetStatement(name.node.value, value.node), semi.next))
    else if w == "continue" then
      var semi :- ExpectAt(ts, i + 1, Symbol, Some(";"));
      Ok(Parsed(ContinueStatement, semi.next))
    else if w == "break" then
      var semi :- ExpectAt(ts, i + 1, Symbol, Some(";"));
      Ok(Parsed(BreakStatement, semi.next))
    else if w == "while" then
      var condition :- PExpr(ts, i + 1);
      var body :- PBlock(ts, condition.next);
      Ok(Parsed(WhileStatement(condition.node, body.node), body.next))
    else if w == "if" then
      var condition :- PExpr(ts, i + 1);
      var consequence :- PBlock(ts, condition.next);
      if KeywordAt(ts, consequence.next, "else") then
        var alternate :- PBlock(ts, consequence.next + 1);
        Ok(Parsed(IfStatement(condition.node, consequence.node, Some(alternate.node)), alternate.next))
      else
        Ok(Parsed(IfStatement(condition.node, consequence.node, None), consequence.next))
    else if w == "print" then
      var e :- PExpr(ts, i + 1);
      var semi :- ExpectAt(ts, e.next, Symbol, Some(";"));
      Ok(Parsed(Print(e.node), semi.next))
    else
      Err(UnrecognizedStatement(ts[i]))
  }

  /**
   * The text `${value}` gives for the `value` field of a parsed index: a
   * number's decimal text, a name, `true`/`false`, and `undefined` for the
   * nodes that have no such field.
   */
  function IndexKey(index: Node): (k: string)
    ensures index.NumberLiteral? && index.number >= 0.0 ==> |k| > 0 && k[0] in "0123456789"
    ensures index.NumberLiteral? && index.number < 0.0 ==> |k| > 1 && k[0] == '-' && k[1] in "0123456789"
  {
    match index
    case NumberLiteral(v) => if v >= 0.0 then NumberText(v) else "-" + NumberText(-v)
    case Identifier(name) => name
    case BooleanLiteral(b) => if b then "true" else "false"
    case Assignment(_, _) | LetStatement(_, _) | ReturnStatement(_) => "[object Object]"
    case _ => "undefined"
  }

  /** The assignment target after the name at `i`: the name, or `name[key]` after an index. */
  function PTarget(ts: seq<Token>, i: nat): (r: Result<Parsed<string>, ParseError>)
    requires i < |ts|
    ensures r.Ok? ==> i < r.value.next <= |ts|
    decreases |ts| - i, 0
  {
    var id := ts[i].value;
    if ValueAt(ts, i + 1) == Some("[") then
      var index :- PExpr(ts, i + 2);
      var close :- ExpectAt(ts, index.next, Symbol, Some("]"));
      Ok(Parsed(id + "[" + IndexKey(index.node) + "]", close.next))
    else
      Ok(Parsed(id, i + 1))
  }

  /** The assignment statement `target = value;` starting at the name at `i`. */
  function PAssignment(ts: seq<Token>, i: nat): (r: Result<Parsed<Node>, ParseError>)
    requires i < |ts|
    ensures r.Ok? ==> i < r.value.next <= |ts|
    decreases |ts| - i, 1
  {
    var target :- PTarget(ts, i);
    var eq :- ExpectAt(ts, target.next, Symbol, Some("="));
    var value :- PExpr(ts, eq.next);
    var semi :- ExpectAt(ts, value.next, Symbol, Some(";"));
    Ok(Parsed(Assignment(target.node, value.node), semi.next))
  }

  /** The main loop from `i`: statements until every token is consumed. */
  function Program(ts: seq<Token>, i: nat): (r: Result<seq<Node>, ParseError>)
    requires i <= |ts|
    ensures r.Ok? ==> |r.value| <= |ts| - i
    decreases |ts| - i
  {
    if i == |ts| then Ok([])
    else
      var s :- PStatement(ts, i);
      Prepend([s.node], Program(ts, s.next))
  }

  // ---------------------------------------------------------------------------
  // The parser on a shared cursor

  /** A method's result and final cursor, in the shape the specification functions return. */
  function Outcome<T>(r: Result<T, ParseError>, next: nat): Result<Parsed<T>, ParseError>
  {
    match r
    case Ok(v) => Ok(Parsed(v, next))
    case Err(e) => Err(e)
  }

  /** The closure state of `parse`: the token list and the cursor its inner functions share. */
  class Parser {
    const tokens: seq<Token>
    var current: nat

    constructor(tokens: seq<Token>)
      ensures this.tokens == tokens && current == 0
    {
      this.tokens := tokens;
      current := 0;
    }

    method Peek() returns (t: Option<Token>)
      ensures t == At(tokens, current)
    {
      t := if current < |tokens| then Some(tokens[current]) else None;
    }

    /** `tokens[current++]`: the cursor advances even past the end. */
    method Consume() returns (t: Option<Token>)
      modifies this
      ensures t == At(tokens, old(current)) && current == old(current) + 1
    {
      t := if current < |tokens| then Some(tokens[current]) else None;
      current := current + 1;
    }

    method Expect(kind: TokenKind, value: Option<string>) returns (r: Result<Token, ParseError>)
      modifies this
      ensures Outcome(r, current) == ExpectAt(tokens, old(current), kind, value)
    {
      var token := Consume();
      if token.None? || token.value.kind != kind || (value.Some? && token.value.value != value.value) {
        return Err(Expected(kind, value, token));
      }
      return Ok(token.value);
    }

    /**
     * `parseExpression`: `left` absorbs each following operator and primary.
     * The loop tests `OperatorAt`, which `OperatorList` shows is the source's
     * test against its list of twelve symbols.
     */
    method ParseExpression() returns (r: Result<Node, ParseError>)
      requires current <= |tokens|
      modifies this
      ensures Outcome(r, current) == PExpr(tokens, old(current))
      decreases |tokens| - current, 2
    {
      var first := ParsePrimary();
      if first.Err? {
        return Err(first.error);
      }
      var left := first.value;
      ExprHeadAt(tokens, old(current), left, current);
      while OperatorAt(tokens, current)
        invariant LoopReaches(tokens, old(current), left, current)
        decreases |tokens| - current
      {
        ghost var at := current;
        var operator := Consume();
        var right := ParsePrimary();
        LoopTurn(tokens, old(current), left, at, right, current);
        if right.Err? {
          return Err(right.error);
        }
        left := BinaryExpression(OpFromSymbol(operator.value.value).value, left, right.value);
      }
      LoopEnds(tokens, old(current), left, current);
      return Ok(left);
    }

    method ParsePrimary() returns (r: Result<Node, ParseError>)
      requires current <= |tokens|
      modifies this
      ensures Outcome(r, current) == PPrimary(tokens, old(current))
      decreases |tokens| - current, 1
    {
      var token := Peek();
      if token.None? {
        return Err(UnexpectedToken(None));
      }
      var t := token.value;
      if t.kind == Symbol && (t.value == "-" || t.value == "!") {
        var operator := Consume();
        var argument :- ParsePrimary();
        return Ok(UnaryExpression(UnaryFromSymbol(operator.value.value).value, argument));
      }
      if t.kind == Keyword && t.value == "true" {
        var _ := Consume();
        return Ok(BooleanLiteral(true));
      }
      if t.kind == Keyword && t.value == "false" {
        var _ := Consume();
        return Ok(BooleanLiteral(false));
      }
      if t.kind == Keyword && t.value == "fn" {
        r := ParseFunctionExpression();
        return;
      }
      if t.kind == Number {
        var _ := Consume();
        if !IsNumeral(t.value) {
          return Err(NotANumeral(t.value));
        }
        return Ok(NumberLiteral(NumeralValue(t.value)));
      }
      if t.kind == Symbol && t.value == "(" {
        r := ParseParenthesised();
        return;
      }
      if t.kind == Symbol && t.value == "[" {
        r := ParseArrayLiteral();
        return;
      }
      if t.kind == TokenKind.Identifier {
        r := ParseName();
        return;
      }
      return Err(UnexpectedToken(Some(t)));
    }

    /** The `fn` case of `parsePrimary`: parameters in parentheses, then a block. */
    method ParseFunctionExpression() returns (r: Result<Node, ParseError>)
      requires current < |tokens| && tokens[current] == Token(Keyword, "fn")
      modifies this
      ensures Outcome(r, current) == PPrimary(tokens, old(current))
      decreases |tokens| - current, 0
    {
      var _ := Consume();
      var _ :- Expect(Symbol, Some("("));
      var params :- ParseParams();
      var _ :- Expect(Symbol, Some(")"));
      var body :- ParseBlock();
      return Ok(FunctionExpression(params, body));
    }

    /** The `(` case of `parsePrimary`: an expression and the closing `)`. */
    method ParseParenthesised() returns (r: Result<Node, ParseError>)
      requires current < |tokens| && tokens[current] == Token(Symbol, "(")
      modifies this
      ensures Outcome(r, current) == PPrimary(tokens, old(current))
      decreases |tokens| - current, 0
    {
      var _ := Consume();
      var expr :- ParseExpression();
      var _ :- Expect(Symbol, Some(")"));
      return Ok(expr);
    }

    /** The `[` case of `parsePrimary`: elements up to the closing `]`. */
    method ParseArrayLiteral() returns (r: Result<Node, ParseError>)
      requires current < |tokens| && tokens[current] == Token(Symbol, "[")
      modifies this
      ensures Outcome(r, current) == PPrimary(tokens, old(current))
      decreases |tokens| - current, 0
    {
      var _ := Consume();
      var elements :- ParseItems("]");
      var _ :- Expect(Symbol, Some("]"));
      return Ok(ArrayLiteral(elements));
    }

    /** The identifier case of `parsePrimary`. */
    method ParseName() returns (r: Result<Node, ParseError>)
      requires current < |tokens|
      modifies this
      ensures Outcome(r, current) == PName(tokens, old(current))
      decreases |tokens| - current, 0
    {
      var id := Consume();
      var next := Peek();
      if next.Some? && next.value.value == "(" {
        var _ := Consume();
        var args :- ParseItems(")");
        var _ :- Expect(Symbol, Some(")"));
        return Ok(FunctionCall(id.value.value, args));
      }
      if next.Some? && next.value.value == "[" {
        var _ := Consume();
        var index :- ParseExpression();
        var _ :- Expect(Symbol, Some("]"));
        return Ok(IndexAccess(Node.Identifier(id.value.value), index));
      }
      return Ok(Node.Identifier(id.value.value));
    }

    /** The parameter loop of a fn-expression or declaration. */
    method ParseParams() returns (r: Result<seq<string>, ParseError>)
      requires current <= |tokens|
      modifies this
      ensures Outcome(r, current) == PParams(tokens, old(current))
    {
      var params: seq<string> := [];
      assert PrependParsed(params, PParams(tokens, current)) == PParams(tokens, current) by {
        if PParams(tokens, current).Ok? { assert [] + PParams(tokens, current).value.node == PParams(tokens, current).value.node; }
      }
      while ValueAt(tokens, current) != Some(")")
        invariant current <= |tokens|
        invariant PParams(tokens, old(current)) == PrependParsed(params, PParams(tokens, current))
        decreases |tokens| - current
      {
        var param :- Expect(TokenKind.Identifier, None);
        var comma := Peek();
        if comma.Some? && comma.value.value == "," {
          var _ := Consume();
        }
        PrependParsedTwice(params, [param.value], PParams(tokens, current));
        params := params + [param.value];
      }
      assert params + [] == params;
      return Ok(params);
    }

    /** The argument loop of a call (`close` is `)`) and the element loop of an array literal (`]`). */
    method ParseItems(close: string) returns (r: Result<seq<Node>, ParseError>)
      requires current <= |tokens|
      modifies this
      ensures Outcome(r, current) == PItems(tokens, old(current), close)
      decreases |tokens| - current, 3
    {
      var items: seq<Node> := [];
      assert PrependParsed(items, PItems(tokens, current, close)) == PItems(tokens, current, close) by {
        if PItems(tokens, current, close).Ok? { assert [] + PItems(tokens, current, close).value.node == PItems(tokens, current, close).value.node; }
      }
      while ValueAt(tokens, current) != Some(close)
        invariant old(current) <= current <= |tokens|
        invariant PItems(tokens, old(current), close) == PrependParsed(items, PItems(tokens, current, close))
        decreases |tokens| - current
      {
        var item :- ParseExpression();
        var comma := Peek();
        if comma.Some? && comma.value.value == "," {
          var _ := Consume();
        }
        PrependParsedTwice(items, [item], PItems(tokens, current, close));
        items := items + [item];
      }
      assert items + [] == items;
      return Ok(items);
    }

    /** `parseBlock`: the statements between `{` and `}`. */
    method ParseBlock() returns (r: Result<seq<Node>, ParseError>)
      requires current <= |tokens|
      modifies this
      ensures Outcome(r, current) == PBlock(tokens, old(current))
      decreases |tokens| - current, 0
    {
      var _ :- Expect(Symbol, Some("{"));
      ghost var start := current;
      var body: seq<Node> := [];
      assert PrependParsed(body, PStatements(tokens, start)) == PStatements(tokens, start) by {
        if PStatements(tokens, start).Ok? { assert [] + PStatements(tokens, start).value.node == PStatements(tokens, start).value.node; }
      }
      while current < |tokens| && tokens[current].value != "}"
        invariant old(current) < start <= current <= |tokens|
        invariant PStatements(tokens, start) == PrependParsed(body, PStatements(tokens, current))
        decreases |tokens| - current
      {
        var statement :- ParseStatement();
        PrependParsedTwice(body, [statement], PStatements(tokens, current));
        body := body + [statement];
      }
      assert body + [] == body;
      var _ :- Expect(Symbol, Some("}"));
      return Ok(body);
    }

    /** `parseStatement`, on a token. */
    method ParseStatement() returns (r: Result<Node, ParseError>)
      requires current < |tokens|
      modifies this
      ensures Outcome(r, current) == PStatement(tokens, old(current))
      decreases |tokens| - current, 2
    {
      var token := Peek();
      var t := token.value;
      if t.kind == Keyword {
        r := ParseKeywordStatement();
        return;
      }
      if t.kind == Symbol && t.value == "{" {
        var block :- ParseBlock();
        return Ok(BlockStatement(block));
      }
      if t.kind == TokenKind.Identifier {
        r := ParseAssignment();
        return;
      }
      return Err(UnrecognizedStatement(t));
    }

    /** The keyword cases of `parseStatement`. */
    method ParseKeywordStatement() returns (r: Result<Node, ParseError>)
      requires current < |tokens| && tokens[current].kind == Keyword
      modifies this
      ensures Outcome(r, current) == PKeywordStatement(tokens, old(current))
      decreases |tokens| - current, 1
    {
      var w := tokens[current].value;
      if w == "fn" {
        r := ParseFunctionDeclaration();
        return;
      }
      if w == "let" {
        r := ParseLet();
        return;
      }
      if w == "if" {
        r := ParseIf();
        return;
      }
      var token := Consume();
      if w == "return" {
        var value :- ParseExpression();
        var _ :- Expect(Symbol, Some(";"));
        return Ok(ReturnStatement(value));
      }
      if w == "continue" {
        var _ :- Expect(Symbol, Some(";"));
        return Ok(ContinueStatement);
      }
      if w == "break" {
        var _ :- Expect(Symbol, Some(";"));
        return Ok(BreakStatement);
      }
      if w == "while" {
        var condition :- ParseExpression();
        var body :- ParseBlock();
        return Ok(WhileStatement(condition, body));
      }
      if w == "print" {
        var expr :- ParseExpression();
        var _ :- Expect(Symbol, Some(";"));
        return Ok(Print(expr));
      }
      return Err(UnrecognizedStatement(token.value));
    }

    /** The `fn` case of `parseStatement`: a name, parameters in parentheses, then a block. */
    method ParseFunctionDeclaration() returns (r: Result<Node, ParseError>)
      requires current < |tokens| && tokens[current] == Token(Keyword, "fn")
      modifies this
      ensures Outcome(r, current) == PKeywordStatement(tokens, old(current))
      decreases |tokens| - current, 0
    {
      var _ := Consume();
      var name :- Expect(TokenKind.Identifier, None);
      var _ :- Expect(Symbol, Some("("));
      var params :- ParseParams();
      var _ :- Expect(Symbol, Some(")"));
      var body :- ParseBlock();
      return Ok(FunctionDeclaration(name.value, params, body));
    }

    /** The `let` case of `parseStatement`: `let name = e;`. */
    method ParseLet() returns (r: Result<Node, ParseError>)
      requires current < |tokens| && tokens[current] == Token(Keyword, "let")
      modifies this
      ensures Outcome(r, current) == PKeywordStatement(tokens, old(current))
      decreases |tokens| - current, 0
    {
      var _ := Consume();
      var identifier :- Expect(TokenKind.Identifier, None);
      var _ :- Expect(Symbol, Some("="));
      var value :- ParseExpression();
      var _ :- Expect(Symbol, Some(";"));
      return Ok(LetStatement(identifier.value, value));
    }

    /** The `if` case of `parseStatement`: a condition, a block, and an `else` block when one follows. */
    method ParseIf() returns (r: Result<Node, ParseError>)
      requires current < |tokens| && tokens[current] == Token(Keyword, "if")
      modifies this
      ensures Outcome(r, current) == PKeywordStatement(tokens, old(current))
      decreases |tokens| - current, 0
    {
      var _ := Consume();
      var condition :- ParseExpression();
      var consequence :- ParseBlock();
      var alternate: Option<seq<Node>> := None;
      var next := Peek();
      if next.Some? && next.value.kind == Keyword && next.value.value == "else" {
        var _ := Consume();
        var elseBlock :- ParseBlock();
        alternate := Some(elseBlock);
      }
      return Ok(IfStatement(condition, consequence, alternate));
    }

    /** The identifier case of `parseStatement`: `name = e;` or `name[index] = e;`. */
    method ParseAssignment() returns (r: Result<Node, ParseError>)
      requires current < |tokens|
      modifies this
      ensures Outcome(r, current) == PAssignment(tokens, old(current))
      decreases |tokens| - current, 1
    {
      var id := Consume();
      var identifier := id.value.value;
      var next := Peek();
      if next.Some? && next.value.value == "[" {
        var _ := Consume();
        var indexExpr :- ParseExpression();
        var _ :- Expect(Symbol, Some("]"));
        identifier := identifier + "[" + IndexKey(indexExpr) + "]";
      }
      var _ :- Expect(Symbol, Some("="));
      var value :- ParseExpression();
      var _ :- Expect(Symbol, Some(";"));
      return Ok(Assignment(identifier, value));
    }
  }

  /** `parse(tokens)`: statements until every token is consumed. */
  method Parse(tokens: seq<Token>) returns (r: Result<seq<Node>, ParseError>)
    ensures r == Program(tokens, 0)
  {
    var parser := new Parser(tokens);
    var ast: seq<Node> := [];
    assert Prepend(ast, Program(tokens, 0)) == Program(tokens, 0) by {
      if Program(tokens, 0).Ok? { assert [] + Program(tokens, 0).value == Program(tokens, 0).value; }
    }
    while parser.current < |parser.tokens|
      invariant parser.tokens == tokens && parser.current <= |tokens|
      invariant Program(tokens, 0) == Prepend(ast, Program(tokens, parser.current))
      decreases |tokens| - parser.current
    {
      var statement :- parser.ParseStatement();
      PrependPrepend(ast, [statement], Program(tokens, parser.current));
      ast := ast + [statement];
    }
    assert ast + [] == ast;
    return Ok(ast);
  }

  // ---------------------------------------------------------------------------
  // What the parser promises

  /**
   * An expression extends as far as operators follow: the token after a
   * parsed expression never continues it, and is left unconsumed.
   */
  lemma ExprIsMaximal(ts: seq<Token>, i: nat)
    requires i <= |ts| && PExpr(ts, i).Ok?
    ensures !OperatorAt(ts, PExpr(ts, i).value.next)
  {
    var left := PPrimary(ts, i).value;
    TailIsMaximal(ts, left.node, left.next);
  }

  lemma {:induction false} TailIsMaximal(ts: seq<Token>, left: Node, j: nat)
    requires j <= |ts| && PExprTail(ts, left, j).Ok?
    ensures !OperatorAt(ts, PExprTail(ts, left, j).value.next)
    decreases |ts| - j
  {
    if OperatorAt(ts, j) {
      var right := PPrimary(ts, j + 1).value;
      TailIsMaximal(ts, BinaryExpression(OpFromSymbol(ts[j].value).value, left, right.node), right.next);
    }
  }

  /** The nodes that denote values. */
  predicate IsExpressionNode(n: Node)
  {
    n.BinaryExpression? || n.UnaryExpression? || n.NumberLiteral? || n.Identifier? || n.BooleanLiteral? ||
    n.FunctionExpression? || n.ArrayLiteral? || n.FunctionCall? || n.IndexAccess?
  }

  /** The nodes that are statements. */
  predicate IsStatementNode(n: Node)
  {
    n.Assignment? || n.Print? || n.BlockStatement? || n.IfStatement? || n.WhileStatement? ||
    n.BreakStatement? || n.ContinueStatement? || n.LetStatement? || n.FunctionDeclaration? || n.ReturnStatement?
  }

  /** `parseExpression` only ever returns a value node, never a statement. */
  lemma {:induction false} ExprIsExpressionNode(ts: seq<Token>, i: nat)
    requires i <= |ts| && PExpr(ts, i).Ok?
    ensures IsExpressionNode(PExpr(ts, i).value.node)
    decreases |ts| - i, 1
  {
    var left := PPrimary(ts, i).value;
    PrimaryIsExpressionNode(ts, i);
    TailIsExpressionNode(ts, left.node, left.next);
  }

  lemma {:induction false} PrimaryIsExpressionNode(ts: seq<Token>, i: nat)
    requires i <= |ts| && PPrimary(ts, i).Ok?
    ensures IsExpressionNode(PPrimary(ts, i).value.node)
    decreases |ts| - i, 0
  {
    if ts[i].kind == Symbol && ts[i].value == "(" {
      ExprIsExpressionNode(ts, i + 1);
    }
  }

  lemma {:induction false} TailIsExpressionNode(ts: seq<Token>, left: Node, j: nat)
    requires j <= |ts| && PExprTail(ts, left, j).Ok? && IsExpressionNode(left)
    ensures IsExpressionNode(PExprTail(ts, left, j).value.node)
    decreases |ts| - j
  {
    if OperatorAt(ts, j) {
      var right := PPrimary(ts, j + 1).value;
      TailIsExpressionNode(ts, BinaryExpression(OpFromSymbol(ts[j].value).value, left, right.node), right.next);
    }
  }

  /** `parseStatement` only ever returns a statement node. */
  lemma StatementIsStatementNode(ts: seq<Token>, i: nat)
    requires i < |ts| && PStatement(ts, i).Ok?
    ensures IsStatementNode(PStatement(ts, i).value.node)
  {
  }

  /**
   * A successful parse is a list of statement nodes, and it fails exactly
   * when the statement at some point the main loop reaches fails.
   */
  lemma {:induction false} ProgramIsStatements(ts: seq<Token>, i: nat)
    requires i <= |ts|
    ensures Program(ts, i).Ok? ==> forall s :: s in Program(ts, i).value ==> IsStatementNode(s)
    ensures Program(ts, i).Err? ==>
      exists k :: (i <= k < |ts| && PStatement(ts, k).Err? && Program(ts, i).error == PStatement(ts, k).error)
    decreases |ts| - i
  {
    if i < |ts| {
      if PStatement(ts, i).Ok? {
        var st := PStatement(ts, i).value;
        StatementIsStatementNode(ts, i);
        ProgramIsStatements(ts, st.next);
      }
    }
  }

  // ---------------------------------------------------------------------------
  // One step of the parse at a time

  /** `parsePrimary` at `i` gives `e` and leaves the cursor at `n`. */
  predicate PrimaryParses(ts: seq<Token>, i: nat, e: Node, n: nat)
  {
    i <= |ts| && PPrimary(ts, i) == Ok(Parsed(e, n))
  }

  /** `parseExpression` at `i` gives `e` and leaves the cursor at `n`. */
  predicate ExprParses(ts: seq<Token>, i: nat, e: Node, n: nat)
  {
    i <= |ts| && PExpr(ts, i) == Ok(Parsed(e, n))
  }

  /** `parseExpression` at `i` reaches its operator loop at `n` with `e` built so far. */
  predicate LoopReaches(ts: seq<Token>, i: nat, e: Node, n: nat)
  {
    i <= |ts| && n <= |ts| && PExpr(ts, i) == PExprTail(ts, e, n)
  }

  /** A name followed by neither `(` nor `[` is a primary on its own. */
  lemma PlainNameStep(ts: seq<Token>, i: nat)
    requires i < |ts| && ts[i].kind == TokenKind.Identifier
    requires ValueAt(ts, i + 1) != Some("(") && ValueAt(ts, i + 1) != Some("[")
    ensures PPrimary(ts, i) == Ok(Parsed(Node.Identifier(ts[i].value), i + 1))
  {
  }

  /** An expression is its first primary followed by the operator loop. */
  lemma ExprHead(ts: seq<Token>, i: nat)
    requires i <= |ts| && PPrimary(ts, i).Ok?
    ensures PExpr(ts, i) == PExprTail(ts, PPrimary(ts, i).value.node, PPrimary(ts, i).value.next)
  {
  }

  /** `ExprHead` for a primary already known. */
  lemma ExprHeadAt(ts: seq<Token>, i: nat, e: Node, n: nat)
    requires PrimaryParses(ts, i, e, n)
    ensures LoopReaches(ts, i, e, n)
  {
    ExprHead(ts, i);
  }

  /** The operator loop fails with the error of a primary missing after an operator. */
  lemma TailFails(ts: seq<Token>, left: Node, j: nat)
    requires j < |ts| && OperatorAt(ts, j) && PPrimary(ts, j + 1).Err?
    ensures PExprTail(ts, left, j) == Err(PPrimary(ts, j + 1).error)
  {
  }

  /** One turn of the operator loop: the operator at `j` and the primary after it fold into `left`. */
  lemma TailStep(ts: seq<Token>, left: Node, j: nat, right: Node, k: nat)
    requires j < |ts| && OperatorAt(ts, j) && PPrimary(ts, j + 1) == Ok(Parsed(right, k))
    ensures PExprTail(ts, left, j) == PExprTail(ts, BinaryExpression(OpFromSymbol(ts[j].value).value, left, right), k)
  {
  }

  /** One turn of the operator loop, given the primary after the operator as `parsePrimary` returns it. */
  lemma TailTurn(ts: seq<Token>, left: Node, j: nat, right: Result<Node, ParseError>, k: nat)
    requires j < |ts| && OperatorAt(ts, j) && Outcome(right, k) == PPrimary(ts, j + 1)
    ensures right.Err? ==> PExprTail(ts, left, j) == Err(right.error)
    ensures right.Ok? ==> k <= |ts|
    ensures right.Ok? ==> PExprTail(ts, left, j) == PExprTail(ts, BinaryExpression(OpFromSymbol(ts[j].value).value, left, right.value), k)
  {
    if right.Ok? {
      TailStep(ts, left, j, right.value, k);
    } else {
      TailFails(ts, left, j);
    }
  }

  /** `TailTurn` seen from the start of the expression at `i`. */
  lemma LoopTurn(ts: seq<Token>, i: nat, left: Node, j: nat, right: Result<Node, ParseError>, k: nat)
    requires LoopReaches(ts, i, left, j) && j < |ts| && OperatorAt(ts, j) && Outcome(right, k) == PPrimary(ts, j + 1)
    ensures right.Err? ==> PExpr(ts, i) == Err(right.error)
    ensures right.Ok? ==> LoopReaches(ts, i, BinaryExpression(OpFromSymbol(ts[j].value).value, left, right.value), k)
  {
    TailTurn(ts, left, j, right, k);
  }

  /** The operator loop stops at a token that is not an operator. */
  lemma TailEnd(ts: seq<Token>, left: Node, j: nat)
    requires j <= |ts| && !OperatorAt(ts, j)
    ensures PExprTail(ts, left, j) == Ok(Parsed(left, j))
  {
  }

  /** A name followed by neither `(`, `[` nor an operator is a whole expression. */
  lemma NameExprStep(ts: seq<Token>, i: nat)
    requires i < |ts| && ts[i].kind == TokenKind.Identifier
    requires ValueAt(ts, i + 1) != Some("(") && ValueAt(ts, i + 1) != Some("[") && !OperatorAt(ts, i + 1)
    ensures ExprParses(ts, i, Node.Identifier(ts[i].value), i + 1)
  {
    PlainNameStep(ts, i);
    ExprHeadAt(ts, i, Node.Identifier(ts[i].value), i + 1);
    LoopEnds(ts, i, Node.Identifier(ts[i].value), i + 1);
  }

  /** One turn of the item loop: the expression at `i` goes in front of the items after it. */
  lemma ItemStep(ts: seq<Token>, i: nat, close: string, item: Node, j: nat)
    requires ValueAt(ts, i) != Some(close) && ExprParses(ts, i, item, j)
    ensures PItems(ts, i, close) == PrependParsed([item], PItems(ts, SkipComma(ts, j), close))
  {
  }

  /** A numeral token is a number literal of the numeral's value. */
  lemma NumberStep(ts: seq<Token>, i: nat)
    requires i < |ts| && ts[i].kind == Number && IsNumeral(ts[i].value)
    ensures PPrimary(ts, i) == Ok(Parsed(NumberLiteral(NumeralValue(ts[i].value)), i + 1))
  {
  }

  /** The keywords `true` and `false` are boolean literals. */
  lemma BooleanStep(ts: seq<Token>, i: nat)
    requires i < |ts| && ts[i].kind == Keyword && (ts[i].value == "true" || ts[i].value == "false")
    ensures PPrimary(ts, i) == Ok(Parsed(BooleanLiteral(ts[i].value == "true"), i + 1))
  {
  }

  /** A prefix operator applies to exactly the one primary after it. */
  lemma UnaryStep(ts: seq<Token>, i: nat, argument: Node, k: nat)
    requires i < |ts| && ts[i].kind == Symbol && UnaryFromSymbol(ts[i].value).Some?
    requires PrimaryParses(ts, i + 1, argument, k)
    ensures PrimaryParses(ts, i, UnaryExpression(UnaryFromSymbol(ts[i].value).value, argument), k)
  {
  }

  /** Parentheses give the expression inside them and add no node. */
  lemma ParenthesesStep(ts: seq<Token>, i: nat, e: Node, m: nat)
    requires SymbolAt(ts, i, "(") && ExprParses(ts, i + 1, e, m) && SymbolAt(ts, m, ")")
    ensures PrimaryParses(ts, i, e, m + 1)
  {
  }

  // ---------------------------------------------------------------------------
  // Printing an expression flat and parsing it back

  /** An expression over names, whole numbers and booleans, so that every leaf has a token. */
  predicate Printable(e: Node)
  {
    match e
    case BinaryExpression(_, l, r) => Printable(l) && Printable(r)
    case UnaryExpression(_, a) => Printable(a)
    case NumberLiteral(v) => v >= 0.0 && v == v.Floor as real
    case Identifier(_) => true
    case BooleanLiteral(_) => true
    case _ => false
  }

  /**
   * The tokens of an expression, printed for a parser without precedence: a
   * left operand is printed as it is, so the left-nested chain
   * `p0 op1 p1 ... opn pn` has no parentheses; only an infix expression in
   * primary position (a right operand, or the operand of `-` or `!`) is
   * parenthesised.
   */
  function Unparse(e: Node): (u: seq<Token>)
    requires Printable(e)
    ensures |u| > 0
    decreases e, 0
  {
    match e
    case BinaryExpression(op, l, r) => Unparse(l) + ([Token(Symbol, OpSymbol(op))] + UnparseOperand(r))
    case UnaryExpression(op, a) => [Token(Symbol, UnarySymbol(op))] + UnparseOperand(a)
    case NumberLiteral(v) => [Token(Number, NatText(v.Floor))]
    case Identifier(x) => [Token(TokenKind.Identifier, x)]
    case BooleanLiteral(b) => [Token(Keyword, if b then "true" else "false")]
  }

  /** An operand in primary position: an infix expression goes in parentheses. */
  function UnparseOperand(e: Node): (u: seq<Token>)
    requires Printable(e)
    ensures |u| > 0
    decreases e, 1
  {
    if e.BinaryExpression? then [Token(Symbol, "(")] + (Unparse(e) + [Token(Symbol, ")")]) else Unparse(e)
  }

  /** The token at `k`, if any, does not turn a name before it into a call or an index access. */
  predicate EndsName(ts: seq<Token>, k: nat)
  {
    ValueAt(ts, k) != Some("(") && ValueAt(ts, k) != Some("[")
  }

  /** No binary operator is spelled `(`, `[` or `)`. */
  lemma OperatorEndsName(op: BinaryOp)
    ensures OpSymbol(op) != "(" && OpSymbol(op) != "[" && OpSymbol(op) != ")"
  {
    OpSymbolRoundTrip(op);
    assert OpFromSymbol("(").None? && OpFromSymbol("[").None? && OpFromSymbol(")").None?;
  }

  /** The printed infix expression at `i`: its left operand, the operator at `k`, then the right operand. */
  lemma InfixPieces(e: Node, ts: seq<Token>, i: nat) returns (k: nat)
    requires Printable(e) && e.BinaryExpression? && Spells(ts, i, Unparse(e))
    ensures k == i + |Unparse(e.left)| && k < |ts| && i + |Unparse(e)| == k + 1 + |UnparseOperand(e.right)|
    ensures Spells(ts, i, Unparse(e.left)) && Spells(ts, k + 1, UnparseOperand(e.right))
    ensures ts[k] == Token(Symbol, OpSymbol(e.operator)) && OperatorAt(ts, k) && EndsName(ts, k)
    ensures Printable(e.left) && Printable(e.right)
    ensures EndsName(ts, i + |Unparse(e)|) ==> EndsName(ts, k + 1 + |UnparseOperand(e.right)|)
  {
    k := i + |Unparse(e.left)|;
    var sym := Token(Symbol, OpSymbol(e.operator));
    SpellsSplit(ts, i, Unparse(e.left), [sym] + UnparseOperand(e.right));
    SpellsSplit(ts, k, [sym], UnparseOperand(e.right));
    SpellsHead(ts, k, [sym]);
    OpSymbolRoundTrip(e.operator);
    OperatorEndsName(e.operator);
  }

  /** A printed leaf or prefix expression is one primary. */
  lemma {:induction false} PrimaryRoundTrip(e: Node, ts: seq<Token>, i: nat)
    requires Printable(e) && !e.BinaryExpression? && Spells(ts, i, Unparse(e))
    requires EndsName(ts, i + |Unparse(e)|)
    ensures PrimaryParses(ts, i, e, i + |Unparse(e)|)
    decreases e, 0
  {
    SpellsHead(ts, i, Unparse(e));
    match e
    case UnaryExpression(op, a) =>
      SpellsSplit(ts, i, [Token(Symbol, UnarySymbol(op))], UnparseOperand(a));
      OperandRoundTrip(a, ts, i + 1);
      UnarySymbolRoundTrip(op);
      UnaryStep(ts, i, a, i + |Unparse(e)|);
    case NumberLiteral(v) =>
      NatNumeral(v.Floor);
      NumberStep(ts, i);
    case Identifier(_) =>
      PlainNameStep(ts, i);
    case BooleanLiteral(_) =>
      BooleanStep(ts, i);
  }

  /** A printed operand is one primary, parenthesised when it is infix. */
  lemma {:induction false} OperandRoundTrip(e: Node, ts: seq<Token>, i: nat)
    requires Printable(e) && Spells(ts, i, UnparseOperand(e)) && EndsName(ts, i + |UnparseOperand(e)|)
    ensures PrimaryParses(ts, i, e, i + |UnparseOperand(e)|)
    decreases e, 5
  {
    if e.BinaryExpression? {
      ParenthesesRoundTrip(e, ts, i);
    } else {
      LeafOperand(e);
      PrimaryRoundTrip(e, ts, i);
    }
  }

  /** A leaf or prefix expression is printed as an operand the same way as on its own. */
  lemma LeafOperand(e: Node)
    requires Printable(e) && !e.BinaryExpression?
    ensures UnparseOperand(e) == Unparse(e)
  {
  }

  /** The infix case of `OperandRoundTrip`: the expression between its parentheses. */
  lemma ParenthesesRoundTrip(e: Node, ts: seq<Token>, i: nat)
    requires Printable(e) && e.BinaryExpression? && Spells(ts, i, UnparseOperand(e))
    ensures PrimaryParses(ts, i, e, i + |UnparseOperand(e)|)
    decreases e, 4
  {
    var m := i + 1 + |Unparse(e)|;
    ParenthesesPieces(e, ts, i, m);
    ExprRoundTrip(e, ts, i + 1, m);
    ParenthesesStep(ts, i, e, m);
  }

  /** Where the pieces of a parenthesised operand sit. */
  lemma ParenthesesPieces(e: Node, ts: seq<Token>, i: nat, m: nat)
    requires Printable(e) && e.BinaryExpression? && Spells(ts, i, UnparseOperand(e)) && m == i + 1 + |Unparse(e)|
    ensures Spells(ts, i + 1, Unparse(e)) && SymbolAt(ts, i, "(")
    ensures SymbolAt(ts, m, ")") && !OperatorAt(ts, m) && EndsName(ts, m)
    ensures m + 1 == i + |UnparseOperand(e)|
  {
    var open, close := [Token(Symbol, "(")], [Token(Symbol, ")")];
    SpellsSplitAt(ts, i, UnparseOperand(e), open, Unparse(e) + close);
    SpellsSplit(ts, i + 1, Unparse(e), close);
    SpellsHead(ts, i, open);
    SpellsHead(ts, m, close);
    assert OpFromSymbol(")").None?;
  }

  /** An expression whose loop reaches `l`, the spelled operator `op` and then `r` goes on with `l op r`. */
  lemma InfixTail(ts: seq<Token>, i: nat, e: Node, k: nat, end: nat)
    requires e.BinaryExpression? && i <= |ts| && k < |ts| && ts[k] == Token(Symbol, OpSymbol(e.operator)) && OperatorAt(ts, k)
    requires LoopReaches(ts, i, e.left, k) && PrimaryParses(ts, k + 1, e.right, end)
    ensures LoopReaches(ts, i, e, end)
  {
    OpSymbolRoundTrip(e.operator);
    TailStep(ts, e.left, k, e.right, end);
  }

  /**
   * Parsing from the printed form of `e` is running the operator loop with
   * `e` as its left operand: a left-nested chain is folded from the left.
   */
  lemma {:induction false} PrefixRoundTrip(e: Node, ts: seq<Token>, i: nat)
    requires Printable(e) && Spells(ts, i, Unparse(e)) && EndsName(ts, i + |Unparse(e)|)
    ensures LoopReaches(ts, i, e, i + |Unparse(e)|)
    decreases e, 2
  {
    if e.BinaryExpression? {
      InfixPrefixRoundTrip(e, ts, i);
    } else {
      LeafPrefixRoundTrip(e, ts, i);
    }
  }

  /** The other case of `PrefixRoundTrip`: the expression is the loop's first primary. */
  lemma LeafPrefixRoundTrip(e: Node, ts: seq<Token>, i: nat)
    requires Printable(e) && !e.BinaryExpression? && Spells(ts, i, Unparse(e)) && EndsName(ts, i + |Unparse(e)|)
    ensures LoopReaches(ts, i, e, i + |Unparse(e)|)
    decreases e, 1
  {
    PrimaryRoundTrip(e, ts, i);
    ExprHeadAt(ts, i, e, i + |Unparse(e)|);
  }

  /** The binary case of `PrefixRoundTrip`: the left operand's loop, then one more turn. */
  lemma {:induction false} InfixPrefixRoundTrip(e: Node, ts: seq<Token>, i: nat)
    requires Printable(e) && e.BinaryExpression? && Spells(ts, i, Unparse(e)) && EndsName(ts, i + |Unparse(e)|)
    ensures LoopReaches(ts, i, e, i + |Unparse(e)|)
    decreases e, 1
  {
    var k := InfixPieces(e, ts, i);
    PrefixRoundTrip(e.left, ts, i);
    OperandRoundTrip(e.right, ts, k + 1);
    InfixTail(ts, i, e, k, i + |Unparse(e)|);
  }

  /**
   * The printed form of an expression, followed by a token that continues
   * neither the expression nor its last name, parses back to the expression
   * and stops right after it.
   */
  lemma {:induction false} ExprRoundTrip(e: Node, ts: seq<Token>, i: nat, n: nat)
    requires Printable(e) && Spells(ts, i, Unparse(e)) && n == i + |Unparse(e)|
    requires !OperatorAt(ts, n) && EndsName(ts, n)
    ensures ExprParses(ts, i, e, n)
    decreases e, 3
  {
    PrefixRoundTrip(e, ts, i);
    LoopEnds(ts, i, e, n);
  }

  /** An expression whose loop reaches a token that is not an operator ends there. */
  lemma LoopEnds(ts: seq<Token>, i: nat, e: Node, n: nat)
    requires LoopReaches(ts, i, e, n) && !OperatorAt(ts, n)
    ensures ExprParses(ts, i, e, n)
  {
    TailEnd(ts, e, n);
  }

  /** Parsing the printed form of any printable expression gives it back and consumes every token. */
  lemma UnparseRoundTrip(e: Node)
    requires Printable(e)
    ensures PExpr(Unparse(e), 0) == Ok(Parsed(e, |Unparse(e)|))
  {
    var u := Unparse(e);
    SpellsSuffix(u, 0);
    assert u[0..] == u;
    ExprRoundTrip(e, u, 0, |u|);
  }

  /** A leaf: a name, a whole number or a boolean. */
  predicate Leaf(e: Node)
  {
    Printable(e) && (e.Identifier? || e.NumberLiteral? || e.BooleanLiteral?)
  }

  /** The chain `p0 op1 p1 ... opn pn` of leaves, as the left-associative parse builds it. */
  predicate LeftChain(e: Node)
  {
    if e.BinaryExpression? then LeftChain(e.left) && Leaf(e.right) else Leaf(e)
  }

  /** A left-nested chain of leaves prints with no parentheses at all. */
  lemma {:induction false} ChainPrintsFlat(e: Node)
    requires LeftChain(e)
    ensures Printable(e)
    ensures Token(Symbol, "(") !in Unparse(e) && Token(Symbol, ")") !in Unparse(e)
  {
    if e.BinaryExpression? {
      ChainPrintsFlat(e.left);
      OperatorEndsName(e.operator);
      var rest := [Token(Symbol, OpSymbol(e.operator))] + UnparseOperand(e.right);
      assert |UnparseOperand(e.right)| == 1 && UnparseOperand(e.right)[0].kind != Symbol;
      assert Token(Symbol, "(") !in rest && Token(Symbol, ")") !in rest;
      assert Unparse(e) == Unparse(e.left) + rest;
    }
  }

  // ---------------------------------------------------------------------------
  // Examples

  function Name(s: string): Token { Token(TokenKind.Identifier, s) }
  function Sym(s: string): Token { Token(Symbol, s) }
  function Kw(s: string): Token { Token(Keyword, s) }
  function Var(s: string): Node { Node.Identifier(s) }

  /** Three names joined by two operators fold from the left, whatever the operators. */
  lemma ChainOfThree(ts: seq<Token>, first: BinaryOp, second: BinaryOp)
    requires |ts| == 5 && ts[0].kind == ts[2].kind == ts[4].kind == TokenKind.Identifier
    requires ts[1] == Sym(OpSymbol(first)) && ts[3] == Sym(OpSymbol(second))
    ensures ExprParses(ts, 0, BinaryExpression(second, BinaryExpression(first, Var(ts[0].value), Var(ts[2].value)), Var(ts[4].value)), 5)
  {
    var a, b, c := Var(ts[0].value), Var(ts[2].value), Var(ts[4].value);
    OpSymbolRoundTrip(first);
    OpSymbolRoundTrip(second);
    OperatorEndsName(first);
    OperatorEndsName(second);
    PlainNameStep(ts, 0);
    ExprHeadAt(ts, 0, a, 1);
    PlainNameStep(ts, 2);
    LoopTurn(ts, 0, a, 1, Ok(b), 3);
    PlainNameStep(ts, 4);
    LoopTurn(ts, 0, BinaryExpression(first, a, b), 3, Ok(c), 5);
    LoopEnds(ts, 0, BinaryExpression(second, BinaryExpression(first, a, b), c), 5);
  }

  /** No precedence: `a + b * c` parses as `(a + b) * c`. */
  lemma ExampleNoPrecedence()
    ensures PExpr([Name("a"), Sym("+"), Name("b"), Sym("*"), Name("c")], 0) ==
      Ok(Parsed(BinaryExpression(Mul, BinaryExpression(Add, Var("a"), Var("b")), Var("c")), 5))
  {
    assert OpFromSymbol("+") == Some(Add) && OpFromSymbol("*") == Some(Mul);
    ChainOfThree([Name("a"), Sym("+"), Name("b"), Sym("*"), Name("c")], Add, Mul);
  }

  /** Left association: `a - b - c` parses as `(a - b) - c`. */
  lemma ExampleLeftAssociative()
    ensures PExpr([Name("a"), Sym("-"), Name("b"), Sym("-"), Name("c")], 0) ==
      Ok(Parsed(BinaryExpression(Sub, BinaryExpression(Sub, Var("a"), Var("b")), Var("c")), 5))
  {
    assert OpFromSymbol("-") == Some(Sub);
    ChainOfThree([Name("a"), Sym("-"), Name("b"), Sym("-"), Name("c")], Sub, Sub);
  }

  /** A prefix operator takes one primary: `-a + b` is `(-a) + b`. */
  lemma ExampleNegationBindsTightly()
    ensures PExpr([Sym("-"), Name("a"), Sym("+"), Name("b")], 0) ==
      Ok(Parsed(BinaryExpression(Add, UnaryExpression(Neg, Var("a")), Var("b")), 4))
  {
  }

  /** `!a && b` is `(!a) && b`. */
  lemma ExampleNotBindsTightly()
    ensures PExpr([Sym("!"), Name("a"), Sym("&&"), Name("b")], 0) ==
      Ok(Parsed(BinaryExpression(And, UnaryExpression(Not, Var("a")), Var("b")), 4))
  {
  }

  /** A token that is not an operator ends an expression unconsumed: `a ; b` stops before `;`. */
  lemma ExampleExpressionEnds()
    ensures PExpr([Name("a"), Sym(";"), Name("b")], 0) == Ok(Parsed(Var("a"), 1))
  {
  }

  /** An empty argument list. */
  lemma ExampleEmptyArguments()
    ensures PExpr([Name("f"), Sym("("), Sym(")")], 0) == Ok(Parsed(FunctionCall("f", []), 3))
  {
  }

  /** A trailing comma after the last argument is skipped. */
  lemma ExampleTrailingComma(ts: seq<Token>)
    requires ts == [Name("f"), Sym("("), Name("a"), Sym(","), Sym(")")]
    ensures PExpr(ts, 0) == Ok(Parsed(FunctionCall("f", [Var("a")]), 5))
  {
    NameExprStep(ts, 2);
    ItemStep(ts, 2, ")", Var("a"), 3);
    assert PItems(ts, 4, ")") == Ok(Parsed([], 4));
    assert [Var("a")] + [] == [Var("a")];
    assert PPrimary(ts, 0) == Ok(Parsed(FunctionCall("f", [Var("a")]), 5));
    TailEnd(ts, FunctionCall("f", [Var("a")]), 5);
  }

  /** The comma between arguments may be left out: `f(a b)` has two arguments. */
  lemma ExampleMissingComma(ts: seq<Token>)
    requires ts == [Name("f"), Sym("("), Name("a"), Name("b"), Sym(")")]
    ensures PExpr(ts, 0) == Ok(Parsed(FunctionCall("f", [Var("a"), Var("b")]), 5))
  {
    NameExprStep(ts, 2);
    NameExprStep(ts, 3);
    ItemStep(ts, 2, ")", Var("a"), 3);
    ItemStep(ts, 3, ")", Var("b"), 4);
    assert PItems(ts, 4, ")") == Ok(Parsed([], 4));
    assert [Var("a")] + ([Var("b")] + []) == [Var("a"), Var("b")];
    assert PPrimary(ts, 0) == Ok(Parsed(FunctionCall("f", [Var("a"), Var("b")]), 5));
    TailEnd(ts, FunctionCall("f", [Var("a"), Var("b")]), 5);
  }

  /** An unclosed argument list fails at the end of the input. */
  lemma ExampleUnclosedCall()
    ensures PExpr([Name("f"), Sym("("), Name("a")], 0) == Err(UnexpectedToken(None))
  {
  }

  /** An array literal takes the same optional commas as an argument list. */
  lemma ExampleArrayLiteral(ts: seq<Token>)
    requires ts == [Sym("["), Name("a"), Sym(","), Name("b"), Sym(","), Sym("]")]
    ensures PExpr(ts, 0) == Ok(Parsed(ArrayLiteral([Var("a"), Var("b")]), 6))
  {
    NameExprStep(ts, 1);
    NameExprStep(ts, 3);
    ItemStep(ts, 1, "]", Var("a"), 2);
    ItemStep(ts, 3, "]", Var("b"), 4);
    assert PItems(ts, 5, "]") == Ok(Parsed([], 5));
    assert [Var("a")] + ([Var("b")] + []) == [Var("a"), Var("b")];
    assert PPrimary(ts, 0) == Ok(Parsed(ArrayLiteral([Var("a"), Var("b")]), 6));
    TailEnd(ts, ArrayLiteral([Var("a"), Var("b")]), 6);
  }

  /** A parameter list may leave out the comma between names. */
  lemma ExampleParams()
    ensures PExpr([Kw("fn"), Sym("("), Name("x"), Name("y"), Sym(")"), Sym("{"), Sym("}")], 0) ==
      Ok(Parsed(FunctionExpression(["x", "y"], []), 7))
  {
    var fs := [Kw("fn"), Sym("("), Name("x"), Name("y"), Sym(")"), Sym("{"), Sym("}")];
    assert PParams(fs, 4) == Ok(Parsed([], 4));
    assert ["y"] + [] == ["y"];
    assert PParams(fs, 3) == Ok(Parsed(["y"], 4));
    assert ["x"] + ["y"] == ["x", "y"];
    assert PParams(fs, 2) == Ok(Parsed(["x", "y"], 4));
    assert PStatements(fs, 6) == Ok(Parsed([], 6));
    assert PBlock(fs, 5) == Ok(Parsed([], 7));
    assert PPrimary(fs, 0) == Ok(Parsed(FunctionExpression(["x", "y"], []), 7));
  }

  /** Without `else` the alternate is absent. */
  lemma ExampleIfWithoutElse()
    ensures PStatement([Kw("if"), Name("a"), Sym("{"), Sym("}")], 0) ==
      Ok(Parsed(IfStatement(Var("a"), [], None), 4))
  {
    var ts := [Kw("if"), Name("a"), Sym("{"), Sym("}")];
    PlainNameStep(ts, 1);
    ExprHead(ts, 1);
    TailEnd(ts, Var("a"), 2);
    assert PStatements(ts, 3) == Ok(Parsed([], 3));
    assert PBlock(ts, 2) == Ok(Parsed([], 4));
    assert PKeywordStatement(ts, 0) == Ok(Parsed(IfStatement(Var("a"), [], None), 4));
  }

  /** The two empty blocks of the example below, with `else` between them. */
  lemma IfElseBlocks(ts: seq<Token>)
    requires ts == [Kw("if"), Name("a"), Sym("{"), Sym("}"), Kw("else"), Sym("{"), Sym("}")]
    ensures PBlock(ts, 2) == Ok(Parsed([], 4)) && KeywordAt(ts, 4, "else") && PBlock(ts, 5) == Ok(Parsed([], 7))
  {
    assert PStatements(ts, 3) == Ok(Parsed([], 3));
    assert PStatements(ts, 6) == Ok(Parsed([], 6));
  }

  /** `else` attaches its block to the `if` just parsed. */
  lemma ExampleIfElse()
    ensures PStatement([Kw("if"), Name("a"), Sym("{"), Sym("}"), Kw("else"), Sym("{"), Sym("}")], 0) ==
      Ok(Parsed(IfStatement(Var("a"), [], Some([])), 7))
  {
    var ts := [Kw("if"), Name("a"), Sym("{"), Sym("}"), Kw("else"), Sym("{"), Sym("}")];
    NameExprStep(ts, 1);
    IfElseBlocks(ts);
    assert PKeywordStatement(ts, 0) == Ok(Parsed(IfStatement(Var("a"), [], Some([])), 7));
  }

  /** `PTarget` at `i` gives `target` and leaves the cursor at `k`. */
  predicate TargetParses(ts: seq<Token>, i: nat, target: string, k: nat)
  {
    i < |ts| && PTarget(ts, i) == Ok(Parsed(target, k))
  }

  /** An indexed target: the name at `i`, `[`, an index expression ending at `k`, and `]`. */
  lemma IndexedTargetStep(ts: seq<Token>, i: nat, index: Node, k: nat)
    requires i + 2 <= k < |ts| && ts[i].kind == TokenKind.Identifier && ts[i + 1].value == "["
    requires ExprParses(ts, i + 2, index, k) && SymbolAt(ts, k, "]")
    ensures TargetParses(ts, i, ts[i].value + "[" + IndexKey(index) + "]", k + 1)
  {
  }

  /** An assignment statement: a target ending at `k`, `=`, a value ending at `m`, and `;`. */
  lemma AssignmentStep(ts: seq<Token>, i: nat, target: string, k: nat, value: Node, m: nat)
    requires i < |ts| && ts[i].kind == TokenKind.Identifier
    requires TargetParses(ts, i, target, k) && SymbolAt(ts, k, "=")
    requires ExprParses(ts, k + 1, value, m) && SymbolAt(ts, m, ";")
    ensures PStatement(ts, i) == Ok(Parsed(Assignment(target, value), m + 1))
  {
  }

  /** `;` is no operator, so it ends an expression, and a name before it is neither called nor indexed. */
  lemma SemicolonEndsExpression()
    ensures OpFromSymbol(";").None? && ";" != "(" && ";" != "["
  {
  }

  /** An indexed target records the index's text: `a[i] = b;` assigns to `"a[i]"`. */
  lemma ExampleIndexedByName(ts: seq<Token>)
    requires ts == [Name("a"), Sym("["), Name("i"), Sym("]"), Sym("="), Name("b"), Sym(";")]
    ensures PStatement(ts, 0) == Ok(Parsed(Assignment("a[i]", Var("b")), 7))
  {
    NameExprStep(ts, 2);
    IndexedTargetStep(ts, 0, Var("i"), 3);
    assert "a" + "[" + IndexKey(Var("i")) + "]" == "a[i]";
    SemicolonEndsExpression();
    NameExprStep(ts, 5);
    AssignmentStep(ts, 0, "a[i]", 4, Var("b"), 6);
  }

  /** The index `i + j` of the example below is a binary expression ending before `]`. */
  lemma SumIndex(ts: seq<Token>)
    requires ts == [Name("a"), Sym("["), Name("i"), Sym("+"), Name("j"), Sym("]"), Sym("="), Name("b"), Sym(";")]
    ensures ExprParses(ts, 2, BinaryExpression(Add, Var("i"), Var("j")), 5)
  {
    PlainNameStep(ts, 2);
    ExprHeadAt(ts, 2, Var("i"), 3);
    PlainNameStep(ts, 4);
    assert OpFromSymbol("+") == Some(Add);
    LoopTurn(ts, 2, Var("i"), 3, Ok(Var("j")), 5);
    LoopEnds(ts, 2, BinaryExpression(Add, Var("i"), Var("j")), 5);
  }

  /** An index that is neither a literal nor a name gives the target `"a[undefined]"`. */
  lemma ExampleIndexedByExpression(ts: seq<Token>)
    requires ts == [Name("a"), Sym("["), Name("i"), Sym("+"), Name("j"), Sym("]"), Sym("="), Name("b"), Sym(";")]
    ensures PStatement(ts, 0) == Ok(Parsed(Assignment("a[undefined]", Var("b")), 9))
  {
    var sum := BinaryExpression(Add, Var("i"), Var("j"));
    SumIndex(ts);
    IndexedTargetStep(ts, 0, sum, 5);
    assert "a" + "[" + IndexKey(sum) + "]" == "a[undefined]";
    SemicolonEndsExpression();
    NameExprStep(ts, 7);
    AssignmentStep(ts, 0, "a[undefined]", 6, Var("b"), 8);
  }

  /** The numeral `2` reads as 2, and 2 as an index key prints as `2`. */
  lemma TwoReadsAndPrints()
    ensures IsNumeral("2") && NumeralValue("2") == 2.0 && IndexKey(NumberLiteral(2.0)) == "2"
  {
    assert NatText(2) == "2";
    NatNumeral(2);
    NumberTextOfNat(2);
  }

  /** The index `2` of the example below is the number 2, printed as `2`, ending before `]`. */
  lemma TwoIndex(ts: seq<Token>)
    requires ts == [Name("a"), Sym("["), Token(Number, "2"), Sym("]"), Sym("="), Name("b"), Sym(";")]
    ensures ExprParses(ts, 2, NumberLiteral(2.0), 3) && IndexKey(NumberLiteral(2.0)) == "2"
  {
    TwoReadsAndPrints();
    NumberStep(ts, 2);
    ExprHeadAt(ts, 2, NumberLiteral(2.0), 3);
    LoopEnds(ts, 2, NumberLiteral(2.0), 3);
  }

  /** An index literal is recorded by its number's text: `a[2] = b;` assigns to `"a[2]"`. */
  lemma ExampleIndexedByNumber(ts: seq<Token>)
    requires ts == [Name("a"), Sym("["), Token(Number, "2"), Sym("]"), Sym("="), Name("b"), Sym(";")]
    ensures PStatement(ts, 0) == Ok(Parsed(Assignment("a[2]", Var("b")), 7))
  {
    TwoIndex(ts);
    IndexedTargetStep(ts, 0, NumberLiteral(2.0), 3);
    assert "a" + "[" + IndexKey(NumberLiteral(2.0)) + "]" == "a[2]";
    SemicolonEndsExpression();
    NameExprStep(ts, 5);
    AssignmentStep(ts, 0, "a[2]", 4, Var("b"), 6);
  }

  /** A call is not a statement: `f();` fails where `=` is expected. */
  lemma ExampleCallStatementRejected()
    ensures Program([Name("f"), Sym("("), Sym(")"), Sym(";")], 0) == Err(Expected(Symbol, Some("="), Some(Sym("("))))
  {
  }

}
