/**
 * The first-generation parser (src/parser/parser.ts): recursive descent over
 * the token list with a shared cursor `current`. Binary expressions are
 * right-associative over `+ - * /`; a statement is `print e;` or `name = e;`.
 *
 * The functions `PExpr`, `PPrimary`, `PStatement` and `Program` say, for a
 * cursor position, what the corresponding inner function of `parse` returns
 * and where it leaves the cursor; the methods of `Parser` are proved to do
 * exactly that.
 */
module SrcParser {
  import opened Wrappers
  import opened Tokens
  import opened Numerals
  import opened SrcAst

  datatype ParseError =
      /** `expect` found another token, or none (`got == None`). */
    | Expected(kind: TokenKind, value: Option<string>, got: Option<Token>)
      /** `parsePrimary` found no primary here (`None`: at the end of the input). */
    | UnexpectedToken(got: Option<Token>)
      /** `parseStatement` found neither `print` nor a name. */
    | UnrecognizedStatement(first: Token)
      /** A number token whose text is not a numeral. */
    | NotANumeral(text: string)

  /** A parsed item and the cursor position after it. */
  datatype Parsed<T> = Parsed(node: T, next: nat)

  /** The operators that continue an expression. */
  const EXPRESSION_OPERATORS: seq<string> := ["+", "-", "*", "/"]

  /** Closing brackets, `;`, `=` and comparisons do not continue an expression. */
  lemma NonOperators(v: string)
    requires v in {")", ";", "=", ">", "<", "(", "==", "!=", ">=", "<="}
    ensures v !in EXPRESSION_OPERATORS
  {
    assert forall o :: o in EXPRESSION_OPERATORS ==> |o| == 1 && o[0] in "+-*/";
  }

  /** The four operators a parsed expression uses are the ones that continue an expression. */
  lemma OperatorSymbols(op: BinaryOp)
    requires op in {Add, Sub, Mul, Div}
    ensures OpSymbol(op) in EXPRESSION_OPERATORS
  {
  }

  /** `tokens[i]`, which is `undefined` past the end. */
  function At(ts: seq<Token>, i: nat): (t: Option<Token>)
    ensures t.Some? <==> i < |ts|
    ensures t.Some? ==> t.value == ts[i]
  {
    if i < |ts| then Some(ts[i]) else None
  }

  predicate IsSymbolAt(ts: seq<Token>, i: nat, v: string)
  {
    i < |ts| && ts[i].kind == Symbol && ts[i].value == v
  }

  /** `expect(kind, value)` at `i`: the token there, if it has that kind and (when given) that text. */
  function ExpectAt(ts: seq<Token>, i: nat, kind: TokenKind, value: Option<string>): (r: Result<Parsed<Token>, ParseError>)
    ensures r.Ok? <==> i < |ts| && ts[i].kind == kind && (value.None? || ts[i].value == value.value)
    ensures r.Ok? ==> r.value == Parsed(ts[i], i + 1)
    ensures r.Err? ==> r.error == Expected(kind, value, At(ts, i))
  {
    if i < |ts| && ts[i].kind == kind && (value.None? || ts[i].value == value.value) then Ok(Parsed(ts[i], i + 1))
    else Err(Expected(kind, value, At(ts, i)))
  }

  /** `parseExpression` at `i`: a primary, then optionally an operator and (recursively) an expression. */
  function PExpr(ts: seq<Token>, i: nat): (r: Result<Parsed<Node>, ParseError>)
    requires i <= |ts|
    ensures r.Ok? ==> i < r.value.next <= |ts|
    decreases |ts| - i, 1
  {
    var left :- PPrimary(ts, i);
    var j := left.next;
    if j < |ts| && ts[j].kind == Symbol && ts[j].value in EXPRESSION_OPERATORS then
      var right :- PExpr(ts, j + 1);
      Ok(Parsed(BinaryExpression(OpFromSymbol(ts[j].value).value, left.node, right.node), right.next))
    else
      Ok(left)
  }

  /** `parsePrimary` at `i`: unary minus, a numeral, a name, or a parenthesised expression. */
  function PPrimary(ts: seq<Token>, i: nat): (r: Result<Parsed<Node>, ParseError>)
    requires i <= |ts|
    ensures r.Ok? ==> i < r.value.next <= |ts|
    decreases |ts| - i, 0
  {
    if i == |ts| then Err(UnexpectedToken(None))
    else
      var t := ts[i];
      if t.kind == Symbol && t.value == "-" then
        var arg :- PPrimary(ts, i + 1);
        Ok(Parsed(UnaryExpression(arg.node), arg.next))
      else if t.kind == Number then
        if IsNumeral(t.value) then Ok(Parsed(NumberLiteral(NumeralValue(t.value)), i + 1))
        else Err(NotANumeral(t.value))
      else if t.kind == TokenKind.Identifier then
        Ok(Parsed(Node.Identifier(t.value), i + 1))
      else if t.kind == Symbol && t.value == "(" then
        var e :- PExpr(ts, i + 1);
        var close :- ExpectAt(ts, e.next, Symbol, Some(")"));
        Ok(Parsed(e.node, close.next))
      else
        Err(UnexpectedToken(Some(t)))
  }

  /** `parseStatement` at `i`, which the main loop only calls on a token. */
  function PStatement(ts: seq<Token>, i: nat): (r: Result<Parsed<Node>, ParseError>)
    requires i < |ts|
    ensures r.Ok? ==> i < r.value.next <= |ts|
  {
    var t := ts[i];
    if t.kind == Keyword && t.value == "print" then
      var e :- PExpr(ts, i + 1);
      var semi :- ExpectAt(ts, e.next, Symbol, Some(";"));
      Ok(Parsed(Print(e.node), semi.next))
    else if t.kind == TokenKind.Identifier then
      var eq :- ExpectAt(ts, i + 1, Symbol, Some("="));
      var e :- PExpr(ts, eq.next);
      var semi :- ExpectAt(ts, e.next, Symbol, Some(";"));
      Ok(Parsed(Assignment(t.value, e.node), semi.next))
    else
      Err(UnrecognizedStatement(t))
  }

  /** The main loop from `i`: statements until every token is consumed. */
  function Program(ts: seq<Token>, i: nat): (r: Result<seq<Node>, ParseError>)
    requires i <= |ts|
    ensures r.Ok? ==> |r.value| <= |ts| - i
    decreases |ts| - i
  {
    if i == |ts| then Ok([])
    else
      var s :- PStatement(ts, i);
      Prepend([s.node], Program(ts, s.next))
  }

  /** A method's result and final cursor, in the shape the specification functions return. */
  function Outcome<T>(r: Result<T, ParseError>, next: nat): Result<Parsed<T>, ParseError>
  {
    match r
    case Ok(v) => Ok(Parsed(v, next))
    case Err(e) => Err(e)
  }

  /** The closure state of `parse`: the token list and the cursor its inner functions share. */
  class Parser {
    const tokens: seq<Token>
    var current: nat

    constructor(tokens: seq<Token>)
      ensures this.tokens == tokens && current == 0
    {
      this.tokens := tokens;
      current := 0;
    }

    method Peek() returns (t: Option<Token>)
      ensures t == At(tokens, current)
    {
      t := if current < |tokens| then Some(tokens[current]) else None;
    }

    /** `tokens[current++]`: the cursor advances even past the end. */
    method Consume() returns (t: Option<Token>)
      modifies this
      ensures t == At(tokens, old(current)) && current == old(current) + 1
    {
      t := if current < |tokens| then Some(tokens[current]) else None;
      current := current + 1;
    }

    method Expect(kind: TokenKind, value: Option<string>) returns (r: Result<Token, ParseError>)
      modifies this
      ensures Outcome(r, current) == ExpectAt(tokens, old(current), kind, value)
    {
      var token := Consume();
      if token.None? || token.value.kind != kind || (value.Some? && token.value.value != value.value) {
        return Err(Expected(kind, value, token));
      }
      return Ok(token.value);
    }

    method ParseExpression() returns (r: Result<Node, ParseError>)
      requires current <= |tokens|
      modifies this
      ensures Outcome(r, current) == PExpr(tokens, old(current))
      decreases |tokens| - current, 1
    {
      var left :- ParsePrimary();
      var next := Peek();
      if next.Some? && next.value.kind == Symbol && next.value.value in EXPRESSION_OPERATORS {
        var operator := Consume();
        var right :- ParseExpression();
        return Ok(BinaryExpression(OpFromSymbol(operator.value.value).value, left, right));
      }
      return Ok(left);
    }

    method ParsePrimary() returns (r: Result<Node, ParseError>)
      requires current <= |tokens|
      modifies this
      ensures Outcome(r, current) == PPrimary(tokens, old(current))
      decreases |tokens| - current, 0
    {
      var token := Peek();
      if token.None? {
        return Err(UnexpectedToken(None));
      }
      var t := token.value;
      if t.kind == Symbol && t.value == "-" {
        var _ := Consume();
        var argument :- ParsePrimary();
        return Ok(UnaryExpression(argument));
      }
      if t.kind == Number {
        var _ := Consume();
        if !IsNumeral(t.value) {
          return Err(NotANumeral(t.value));
        }
        return Ok(NumberLiteral(NumeralValue(t.value)));
      }
      if t.kind == TokenKind.Identifier {
        var _ := Consume();
        return Ok(Node.Identifier(t.value));
      }
      if t.kind == Symbol && t.value == "(" {
        var _ := Consume();
        var expr :- ParseExpression();
        var _ :- Expect(Symbol, Some(")"));
        return Ok(expr);
      }
      return Err(UnexpectedToken(Some(t)));
    }

    method ParseStatement() returns (r: Result<Node, ParseError>)
      requires current < |tokens|
      modifies this
      ensures Outcome(r, current) == PStatement(tokens, old(current))
    {
      var token := Peek();
      var t := token.value;
      if t.kind == Keyword && t.value == "print" {
        var _ := Consume();
        var expr :- ParseExpression();
        var _ :- Expect(Symbol, Some(";"));
        return Ok(Print(expr));
      }
      if t.kind == TokenKind.Identifier {
        var identifier := Consume();
        var _ :- Expect(Symbol, Some("="));
        var value :- ParseExpression();
        var _ :- Expect(Symbol, Some(";"));
        return Ok(Assignment(identifier.value.value, value));
      }
      return Err(UnrecognizedStatement(t));
    }
  }

  /** `parse`: statements until the tokens run out; the first error aborts the whole parse. */
  method Parse(tokens: seq<Token>) returns (r: Result<seq<Node>, ParseError>)
    ensures r == Program(tokens, 0)
  {
    var parser := new Parser(tokens);
    var ast: seq<Node> := [];
    assert Prepend(ast, Program(tokens, 0)) == Program(tokens, 0) by {
      if Program(tokens, 0).Ok? { assert [] + Program(tokens, 0).value == Program(tokens, 0).value; }
    }
    while parser.current < |parser.tokens|
      invariant parser.tokens == tokens && parser.current <= |tokens|
      invariant Program(tokens, 0) == Prepend(ast, Program(tokens, parser.current))
      decreases |tokens| - parser.current
    {
      var statement :- parser.ParseStatement();
      PrependPrepend(ast, [statement], Program(tokens, parser.current));
      ast := ast + [statement];
    }
    assert ast + [] == ast;
    return Ok(ast);
  }

  // ---------------------------------------------------------------------------
  // The shape of what the parser builds

  /** An expression the parser can build: only `+ - * /`, and only non-negative literals. */
  predicate ParsedExpression(e: Node)
  {
    match e
    case BinaryExpression(op, l, r) => op in {Add, Sub, Mul, Div} && ParsedExpression(l) && ParsedExpression(r)
    case UnaryExpression(a) => ParsedExpression(a)
    case NumberLiteral(v) => v >= 0.0
    case Identifier(_) => true
    case _ => false
  }

  /** A statement the parser can build: `print e;` or `name = e;`. */
  predicate ParsedStatement(s: Node)
  {
    match s
    case Print(e) => ParsedExpression(e)
    case Assignment(_, e) => ParsedExpression(e)
    case _ => false
  }

  lemma {:induction false} ExprShape(ts: seq<Token>, i: nat)
    requires i <= |ts| && PExpr(ts, i).Ok?
    ensures ParsedExpression(PExpr(ts, i).value.node)
    decreases |ts| - i, 1
  {
    PrimaryShape(ts, i);
    var j := PPrimary(ts, i).value.next;
    if j < |ts| && ts[j].kind == Symbol && ts[j].value in EXPRESSION_OPERATORS {
      ExprShape(ts, j + 1);
    }
  }

  lemma {:induction false} PrimaryShape(ts: seq<Token>, i: nat)
    requires i <= |ts| && PPrimary(ts, i).Ok?
    ensures ParsedExpression(PPrimary(ts, i).value.node)
    decreases |ts| - i, 0
  {
    var t := ts[i];
    if t.kind == Symbol && t.value == "-" {
      PrimaryShape(ts, i + 1);
    } else if t.kind == Symbol && t.value == "(" {
      ExprShape(ts, i + 1);
    }
  }

  /** Every statement of a successful parse is a print or an assignment of a parsed expression. */
  lemma {:induction false} ProgramShape(ts: seq<Token>, i: nat)
    requires i <= |ts| && Program(ts, i).Ok?
    ensures forall s :: s in Program(ts, i).value ==> ParsedStatement(s)
    decreases |ts| - i
  {
    if i < |ts| {
      var t := ts[i];
      var st := PStatement(ts, i).value;
      if t.kind == Keyword && t.value == "print" {
        ExprShape(ts, i + 1);
      } else {
        ExprShape(ts, i + 2);
      }
      ProgramShape(ts, st.next);
    }
  }

  // ---------------------------------------------------------------------------
  // Printing a tree as tokens and parsing it back

  /** A parsed expression whose literals are whole numbers, so that each has a numeral. */
  predicate Printable(e: Node)
  {
    match e
    case BinaryExpression(op, l, r) => op in {Add, Sub, Mul, Div} && Printable(l) && Printable(r)
    case UnaryExpression(a) => Printable(a)
    case NumberLiteral(v) => v >= 0.0 && v == v.Floor as real
    case Identifier(_) => true
    case _ => false
  }

  /** The tokens of an expression, with every binary node in parentheses. */
  function Unparse(e: Node): (u: seq<Token>)
    requires Printable(e)
    ensures |u| > 0
  {
    match e
    case BinaryExpression(op, l, r) =>
      [Token(Symbol, "(")] + (Unparse(l) + ([Token(Symbol, OpSymbol(op))] + (Unparse(r) + [Token(Symbol, ")")])))
    case UnaryExpression(a) => [Token(Symbol, "-")] + Unparse(a)
    case NumberLiteral(v) => [Token(Number, NatText(v.Floor))]
    case Identifier(x) => [Token(TokenKind.Identifier, x)]
  }

  /** The five parts of `open left sym right close`, in place. */
  lemma InfixPieces(ts: seq<Token>, i: nat, open: Token, left: seq<Token>, sym: Token, right: seq<Token>, close: Token)
    requires Spells(ts, i, [open] + (left + ([sym] + (right + [close]))))
    ensures i + |left| + |right| + 3 <= |ts| && ts[i] == open
    ensures Spells(ts, i + 1, left) && ts[i + 1 + |left|] == sym
    ensures Spells(ts, i + 2 + |left|, right) && ts[i + 2 + |left| + |right|] == close
  {
    SpellsSplit(ts, i, [open], left + ([sym] + (right + [close])));
    SpellsSplit(ts, i + 1, left, [sym] + (right + [close]));
    SpellsSplit(ts, i + 1 + |left|, [sym], right + [close]);
    SpellsSplit(ts, i + 2 + |left|, right, [close]);
    SpellsHead(ts, i, [open]);
    SpellsHead(ts, i + 1 + |left|, [sym]);
    SpellsHead(ts, i + 2 + |left| + |right|, [close]);
  }

  /** Parsing the printed form of a primary gives it back and stops right after it. */
  lemma {:induction false} PrimaryRoundTrip(e: Node, ts: seq<Token>, i: nat)
    requires Printable(e) && Spells(ts, i, Unparse(e))
    ensures PPrimary(ts, i) == Ok(Parsed(e, i + |Unparse(e)|))
    decreases e, 2
  {
    match e
    case NumberLiteral(v) => LiteralRoundTrip(e, ts, i);
    case Identifier(x) => LiteralRoundTrip(e, ts, i);
    case UnaryExpression(a) => UnaryRoundTrip(a, ts, i);
    case BinaryExpression(op, l, r) => BinaryRoundTrip(op, l, r, ts, i);
  }

  lemma LiteralRoundTrip(e: Node, ts: seq<Token>, i: nat)
    requires (e.NumberLiteral? || e.Identifier?) && Printable(e) && Spells(ts, i, Unparse(e))
    ensures PPrimary(ts, i) == Ok(Parsed(e, i + |Unparse(e)|))
  {
    SpellsHead(ts, i, Unparse(e));
    if e.NumberLiteral? {
      NatNumeral(e.number.Floor);
    }
  }

  lemma {:induction false} UnaryRoundTrip(a: Node, ts: seq<Token>, i: nat)
    requires Printable(a) && Spells(ts, i, [Token(Symbol, "-")] + Unparse(a))
    ensures PPrimary(ts, i) == Ok(Parsed(UnaryExpression(a), i + 1 + |Unparse(a)|))
    decreases UnaryExpression(a), 1
  {
    SpellsSplit(ts, i, [Token(Symbol, "-")], Unparse(a));
    SpellsHead(ts, i, [Token(Symbol, "-")]);
    PrimaryRoundTrip(a, ts, i + 1);
    PrimaryOfMinus(ts, i);
  }

  lemma {:induction false} BinaryRoundTrip(op: BinaryOp, l: Node, r: Node, ts: seq<Token>, i: nat)
    requires Printable(BinaryExpression(op, l, r)) && Spells(ts, i, Unparse(BinaryExpression(op, l, r)))
    ensures PPrimary(ts, i) == Ok(Parsed(BinaryExpression(op, l, r), i + |Unparse(BinaryExpression(op, l, r))|))
    decreases BinaryExpression(op, l, r), 1
  {
    BinaryPieces(op, l, r, ts, i);
    var m := i + 2 + |Unparse(l)| + |Unparse(r)|;
    InfixRoundTrip(op, l, r, ts, i + 1, i + 1 + |Unparse(l)|, m);
    PrimaryOfParentheses(ts, i, BinaryExpression(op, l, r), m);
  }

  /** Inside the parentheses: left operand, operator, right operand, then the closing parenthesis. */
  lemma {:induction false} InfixRoundTrip(op: BinaryOp, l: Node, r: Node, ts: seq<Token>, i: nat, k: nat, m: nat)
    requires Printable(BinaryExpression(op, l, r))
    requires k == i + |Unparse(l)| && m == k + 1 + |Unparse(r)|
    requires Spells(ts, i, Unparse(l)) && OperatorAt(ts, k) && ts[k] == Token(Symbol, OpSymbol(op))
    requires Spells(ts, k + 1, Unparse(r)) && !OperatorAt(ts, m)
    ensures PExpr(ts, i) == Ok(Parsed(BinaryExpression(op, l, r), m))
    decreases BinaryExpression(op, l, r), 0
  {
    assert Printable(l) && Printable(r);
    PrimaryRoundTrip(l, ts, i);
    ExprRoundTrip(r, ts, k + 1);
    OpSymbolRoundTrip(op);
    ExprOfOperator(ts, i, l, k, r, m);
  }

  /** Where the parts of a printed binary node sit. */
  lemma BinaryPieces(op: BinaryOp, l: Node, r: Node, ts: seq<Token>, i: nat)
    requires Printable(BinaryExpression(op, l, r)) && Spells(ts, i, Unparse(BinaryExpression(op, l, r)))
    ensures |Unparse(BinaryExpression(op, l, r))| == |Unparse(l)| + |Unparse(r)| + 3
    ensures IsSymbolAt(ts, i, "(") && Spells(ts, i + 1, Unparse(l))
    ensures ts[i + 1 + |Unparse(l)|] == Token(Symbol, OpSymbol(op)) && OperatorAt(ts, i + 1 + |Unparse(l)|)
    ensures Spells(ts, i + 2 + |Unparse(l)|, Unparse(r))
    ensures IsSymbolAt(ts, i + 2 + |Unparse(l)| + |Unparse(r)|, ")") && !OperatorAt(ts, i + 2 + |Unparse(l)| + |Unparse(r)|)
  {
    var ul, ur := Unparse(l), Unparse(r);
    InfixPieces(ts, i, Token(Symbol, "("), ul, Token(Symbol, OpSymbol(op)), ur, Token(Symbol, ")"));
    OperatorSymbols(op);
    NonOperators(")");
  }

  /** An operator symbol, which would continue an expression. */
  predicate OperatorAt(ts: seq<Token>, j: nat)
  {
    j < |ts| && ts[j].kind == Symbol && ts[j].value in EXPRESSION_OPERATORS
  }

  /** Parentheses yield the expression inside them, with no node of their own. */
  lemma PrimaryOfParentheses(ts: seq<Token>, i: nat, e: Node, m: nat)
    requires IsSymbolAt(ts, i, "(") && PExpr(ts, i + 1) == Ok(Parsed(e, m)) && IsSymbolAt(ts, m, ")")
    ensures PPrimary(ts, i) == Ok(Parsed(e, m + 1))
  {
  }

  /** Unary minus wraps exactly the one primary that follows it. */
  lemma PrimaryOfMinus(ts: seq<Token>, i: nat)
    requires IsSymbolAt(ts, i, "-") && PPrimary(ts, i + 1).Ok?
    ensures PPrimary(ts, i) == Ok(Parsed(UnaryExpression(PPrimary(ts, i + 1).value.node), PPrimary(ts, i + 1).value.next))
  {
  }

  /** An expression is a single primary when no operator follows that primary. */
  lemma ExprOfPrimary(ts: seq<Token>, i: nat)
    requires i <= |ts| && PPrimary(ts, i).Ok? && !OperatorAt(ts, PPrimary(ts, i).value.next)
    ensures PExpr(ts, i) == PPrimary(ts, i)
  {
  }

  /** An operator after a primary makes a binary node whose right operand is the rest of the expression. */
  lemma ExprOfOperator(ts: seq<Token>, i: nat, left: Node, j: nat, right: Node, k: nat)
    requires i <= |ts| && PPrimary(ts, i) == Ok(Parsed(left, j)) && OperatorAt(ts, j)
    requires PExpr(ts, j + 1) == Ok(Parsed(right, k))
    ensures PExpr(ts, i) == Ok(Parsed(BinaryExpression(OpFromSymbol(ts[j].value).value, left, right), k))
  {
  }

  /** When no operator follows, parsing an expression's printed form gives the expression back. */
  lemma {:induction false} ExprRoundTrip(e: Node, ts: seq<Token>, i: nat)
    requires Printable(e) && Spells(ts, i, Unparse(e)) && !OperatorAt(ts, i + |Unparse(e)|)
    ensures PExpr(ts, i) == Ok(Parsed(e, i + |Unparse(e)|))
    decreases e, 3
  {
    PrimaryRoundTrip(e, ts, i);
    ExprOfPrimary(ts, i);
  }

  predicate PrintableStatement(s: Node)
  {
    match s
    case Print(e) => Printable(e)
    case Assignment(_, e) => Printable(e)
    case _ => false
  }

  function UnparseStatement(s: Node): (u: seq<Token>)
    requires PrintableStatement(s)
    ensures |u| >= 2
  {
    match s
    case Print(e) => [Token(Keyword, "print")] + (Unparse(e) + [Token(Symbol, ";")])
    case Assignment(x, e) => [Token(TokenKind.Identifier, x), Token(Symbol, "=")] + (Unparse(e) + [Token(Symbol, ";")])
  }

  /** Every statement of `ss` is printable, stated statement by statement. */
  predicate PrintableProgram(ss: seq<Node>)
  {
    ss == [] || (PrintableStatement(ss[0]) && PrintableProgram(ss[1..]))
  }

  function UnparseProgram(ss: seq<Node>): seq<Token>
    requires PrintableProgram(ss)
  {
    if ss == [] then [] else UnparseStatement(ss[0]) + UnparseProgram(ss[1..])
  }

  lemma StatementOfPrint(ts: seq<Token>, i: nat, e: Node, j: nat)
    requires i < |ts| && ts[i] == Token(Keyword, "print")
    requires PExpr(ts, i + 1) == Ok(Parsed(e, j)) && IsSymbolAt(ts, j, ";")
    ensures PStatement(ts, i) == Ok(Parsed(Print(e), j + 1))
  {
  }

  lemma StatementOfAssignment(ts: seq<Token>, i: nat, e: Node, j: nat)
    requires i < |ts| && ts[i].kind == TokenKind.Identifier && IsSymbolAt(ts, i + 1, "=")
    requires PExpr(ts, i + 2) == Ok(Parsed(e, j)) && IsSymbolAt(ts, j, ";")
    ensures PStatement(ts, i) == Ok(Parsed(Assignment(ts[i].value, e), j + 1))
  {
  }

  lemma StatementRoundTrip(s: Node, ts: seq<Token>, i: nat)
    requires PrintableStatement(s) && Spells(ts, i, UnparseStatement(s))
    ensures i < |ts| && PStatement(ts, i) == Ok(Parsed(s, i + |UnparseStatement(s)|))
  {
    match s
    case Print(e) => PrintRoundTrip(e, ts, i);
    case Assignment(x, e) => AssignmentRoundTrip(x, e, ts, i);
  }

  lemma PrintRoundTrip(e: Node, ts: seq<Token>, i: nat)
    requires Printable(e) && Spells(ts, i, [Token(Keyword, "print")] + (Unparse(e) + [Token(Symbol, ";")]))
    ensures PStatement(ts, i) == Ok(Parsed(Print(e), i + 2 + |Unparse(e)|))
  {
    var j := PrintPieces(e, ts, i);
    ExprRoundTrip(e, ts, i + 1);
    StatementOfPrint(ts, i, e, j);
  }

  /** Where the pieces of a printed `print` statement sit. */
  lemma PrintPieces(e: Node, ts: seq<Token>, i: nat) returns (j: nat)
    requires Printable(e) && Spells(ts, i, [Token(Keyword, "print")] + (Unparse(e) + [Token(Symbol, ";")]))
    ensures j == i + 1 + |Unparse(e)|
    ensures i < |ts| && ts[i] == Token(Keyword, "print")
    ensures Spells(ts, i + 1, Unparse(e)) && !OperatorAt(ts, j) && IsSymbolAt(ts, j, ";")
  {
    var head, semi := [Token(Keyword, "print")], [Token(Symbol, ";")];
    j := i + 1 + |Unparse(e)|;
    NonOperators(";");
    SpellsSplit(ts, i, head, Unparse(e) + semi);
    SpellsSplit(ts, i + 1, Unparse(e), semi);
    SpellsHead(ts, i, head);
    SpellsHead(ts, j, semi);
  }

  lemma AssignmentRoundTrip(x: string, e: Node, ts: seq<Token>, i: nat)
    requires Printable(e)
    requires Spells(ts, i, [Token(TokenKind.Identifier, x), Token(Symbol, "=")] + (Unparse(e) + [Token(Symbol, ";")]))
    ensures PStatement(ts, i) == Ok(Parsed(Assignment(x, e), i + 3 + |Unparse(e)|))
  {
    var j := AssignmentPieces(x, e, ts, i);
    ExprRoundTrip(e, ts, i + 2);
    StatementOfAssignment(ts, i, e, j);
  }

  /** Where the pieces of a printed assignment sit. */
  lemma AssignmentPieces(x: string, e: Node, ts: seq<Token>, i: nat) returns (j: nat)
    requires Printable(e)
    requires Spells(ts, i, [Token(TokenKind.Identifier, x), Token(Symbol, "=")] + (Unparse(e) + [Token(Symbol, ";")]))
    ensures j == i + 2 + |Unparse(e)|
    ensures i < |ts| && ts[i] == Token(TokenKind.Identifier, x) && IsSymbolAt(ts, i + 1, "=")
    ensures Spells(ts, i + 2, Unparse(e)) && !OperatorAt(ts, j) && IsSymbolAt(ts, j, ";")
  {
    var name, eq, semi := [Token(TokenKind.Identifier, x)], [Token(Symbol, "=")], [Token(Symbol, ";")];
    j := i + 2 + |Unparse(e)|;
    NonOperators(";");
    assert name + eq == [Token(TokenKind.Identifier, x), Token(Symbol, "=")];
    SpellsSplit(ts, i, name + eq, Unparse(e) + semi);
    SpellsSplit(ts, i, name, eq);
    SpellsSplit(ts, i + 2, Unparse(e), semi);
    SpellsHead(ts, i, name);
    SpellsHead(ts, i + 1, eq);
    SpellsHead(ts, j, semi);
  }

  /** A statement followed by a program is a longer program. */
  lemma ProgramOfStatement(ts: seq<Token>, i: nat, ss: seq<Node>, j: nat)
    requires i < |ts| && ss != []
    requires PStatement(ts, i) == Ok(Parsed(ss[0], j))
    requires Program(ts, j) == Ok(ss[1..])
    ensures Program(ts, i) == Ok(ss)
  {
    assert [ss[0]] + ss[1..] == ss;
  }

  lemma {:induction false} ProgramRoundTripFrom(ss: seq<Node>, ts: seq<Token>, i: nat)
    requires PrintableProgram(ss)
    requires Spells(ts, i, UnparseProgram(ss)) && i + |UnparseProgram(ss)| == |ts|
    ensures Program(ts, i) == Ok(ss)
    decreases ss
  {
    if ss != [] {
      var n := FirstStatement(ss, ts, i);
      ProgramRoundTripFrom(ss[1..], ts, n);
      ProgramOfStatement(ts, i, ss, n);
    }
  }

  /** The first printed statement parses back, and the rest of the program is printed after it. */
  lemma FirstStatement(ss: seq<Node>, ts: seq<Token>, i: nat) returns (n: nat)
    requires ss != [] && PrintableProgram(ss)
    requires Spells(ts, i, UnparseProgram(ss)) && i + |UnparseProgram(ss)| == |ts|
    ensures i < |ts| && PStatement(ts, i) == Ok(Parsed(ss[0], n))
    ensures PrintableProgram(ss[1..]) && Spells(ts, n, UnparseProgram(ss[1..])) && n + |UnparseProgram(ss[1..])| == |ts|
  {
    n := ProgramPieces(ss, ts, i);
    StatementRoundTrip(ss[0], ts, i);
  }

  /** The printed form of a non-empty program is its first statement's, then the rest's. */
  lemma ProgramPieces(ss: seq<Node>, ts: seq<Token>, i: nat) returns (n: nat)
    requires ss != [] && PrintableProgram(ss)
    requires Spells(ts, i, UnparseProgram(ss)) && i + |UnparseProgram(ss)| == |ts|
    ensures PrintableStatement(ss[0]) && PrintableProgram(ss[1..])
    ensures Spells(ts, i, UnparseStatement(ss[0])) && n == i + |UnparseStatement(ss[0])|
    ensures Spells(ts, n, UnparseProgram(ss[1..])) && n + |UnparseProgram(ss[1..])| == |ts|
  {
    n := i + |UnparseStatement(ss[0])|;
    ProgramSpells(ss, ts, i, n);
    ProgramPrintable(ss);
    ProgramLength(ss, ts, i, n);
  }

  lemma ProgramSpells(ss: seq<Node>, ts: seq<Token>, i: nat, n: nat)
    requires ss != [] && PrintableProgram(ss) && n == i + |UnparseStatement(ss[0])|
    requires Spells(ts, i, UnparseProgram(ss))
    ensures Spells(ts, i, UnparseStatement(ss[0])) && Spells(ts, n, UnparseProgram(ss[1..]))
  {
    var first, rest := UnparseProgramCons(ss);
    SpellsSplitAt(ts, i, UnparseProgram(ss), first, rest);
  }

  lemma ProgramPrintable(ss: seq<Node>)
    requires ss != [] && PrintableProgram(ss)
    ensures PrintableStatement(ss[0]) && PrintableProgram(ss[1..])
  {
  }

  lemma ProgramLength(ss: seq<Node>, ts: seq<Token>, i: nat, n: nat)
    requires ss != [] && PrintableProgram(ss) && n == i + |UnparseStatement(ss[0])|
    requires i + |UnparseProgram(ss)| == |ts|
    ensures n + |UnparseProgram(ss[1..])| == |ts|
  {
    var first, rest := UnparseProgramCons(ss);
  }

  /** The printed form of a non-empty program, split after its first statement. */
  lemma UnparseProgramCons(ss: seq<Node>) returns (first: seq<Token>, rest: seq<Token>)
    requires ss != [] && PrintableProgram(ss)
    ensures PrintableStatement(ss[0]) && PrintableProgram(ss[1..])
    ensures first == UnparseStatement(ss[0]) && rest == UnparseProgram(ss[1..])
    ensures Joins(UnparseProgram(ss), first, rest)
  {
    first, rest := UnparseStatement(ss[0]), UnparseProgram(ss[1..]);
  }

  /** The parser is a left inverse of printing: every printable program parses back to itself. */
  lemma ProgramRoundTrip(ss: seq<Node>)
    requires PrintableProgram(ss)
    ensures Program(UnparseProgram(ss), 0) == Ok(ss)
  {
    var u := UnparseProgram(ss);
    SpellsSuffix(u, 0);
    assert u[0..] == u;
    ProgramRoundTripFrom(ss, u, 0);
  }

  // ---------------------------------------------------------------------------
  // Examples

  function Name(s: string): Token { Token(TokenKind.Identifier, s) }
  function Sym(s: string): Token { Token(Symbol, s) }
  function Var(s: string): Node { Node.Identifier(s) }

  /** Right association: `a - b - c` parses as `a - (b - c)`. */
  lemma ExampleRightAssociative()
    ensures PExpr([Name("a"), Sym("-"), Name("b"), Sym("-"), Name("c")], 0) ==
      Ok(Parsed(BinaryExpression(Sub, Var("a"), BinaryExpression(Sub, Var("b"), Var("c"))), 5))
  {
  }

  /** Unary minus takes one primary: `-a + b` is `(-a) + b`; parentheses add no node. */
  lemma ExampleUnaryMinus()
    ensures PExpr([Sym("-"), Name("a"), Sym("+"), Name("b")], 0) ==
      Ok(Parsed(BinaryExpression(Add, UnaryExpression(Var("a")), Var("b")), 4))
    ensures PExpr([Sym("("), Name("a"), Sym(")")], 0) == Ok(Parsed(Var("a"), 3))
  {
  }

  /** A comparison does not continue an expression: `print a > b;` fails where `;` is expected. */
  lemma ExampleComparisonEndsExpression()
    ensures Program([Token(Keyword, "print"), Name("a"), Sym(">"), Name("b"), Sym(";")], 0) ==
      Err(Expected(Symbol, Some(";"), Some(Sym(">"))))
  {
    var ts := [Token(Keyword, "print"), Name("a"), Sym(">"), Name("b"), Sym(";")];
    NonOperators(">");
    assert PExpr(ts, 1) == Ok(Parsed(Var("a"), 2));
    assert PStatement(ts, 0) == Err(Expected(Symbol, Some(";"), Some(Sym(">"))));
  }

  /** Only `print` and a name start a statement. */
  lemma ExampleUnrecognizedStatement()
    ensures Program([Token(Number, "1"), Sym(";")], 0) == Err(UnrecognizedStatement(Token(Number, "1")))
  {
  }
}
