/**
 * The syntax tree of the second-generation language
 * (backend/src/parser/ast.ts): nineteen kinds of node, twelve binary and two
 * unary operators.
 */
module BackendAst {
  import opened Wrappers

  /** `+ - * / > < >= <= == != && ||` */
  datatype BinaryOp = Add | Sub | Mul | Div | Gt | Lt | Ge | Le | Eq | Ne | And | Or

  /** `-` (negation) and `!` (logical not). */
  datatype UnaryOp = Neg | Not

  /**
   * One constructor per node interface. Blocks (if, else, while and function
   * bodies) are their statement lists; an absent `else` is `None`; a call
   * names its callee; `break` and `continue` carry nothing.
   */
  datatype Node =
    | Assignment(identifier: string, value: Node)
    | BinaryExpression(operator: BinaryOp, left: Node, right: Node)
    | UnaryExpression(unary: UnaryOp, argument: Node)
    | NumberLiteral(number: real)
    | Identifier(name: string)
    | Print(argument: Node)
    | BlockStatement(body: seq<Node>)
    | IfStatement(condition: Node, consequence: seq<Node>, alternate: Option<seq<Node>>)
    | WhileStatement(condition: Node, body: seq<Node>)
    | BreakStatement
    | ContinueStatement
    | LetStatement(identifier: string, value: Node)
    | FunctionDeclaration(name: string, params: seq<string>, body: seq<Node>)
    | FunctionCall(name: string, args: seq<Node>)
    | ReturnStatement(value: Node)
    | FunctionExpression(params: seq<string>, body: seq<Node>)
    | ArrayLiteral(elements: seq<Node>)
    | IndexAccess(array: Node, index: Node)
    | BooleanLiteral(truth: bool)

  function OpSymbol(op: BinaryOp): (s: string)
    ensures 1 <= |s| <= 2
  {
    match op
    case Add => "+"
    case Sub => "-"
    case Mul => "*"
    case Div => "/"
    case Gt => ">"
    case Lt => "<"
    case Ge => ">="
    case Le => "<="
    case Eq => "=="
    case Ne => "!="
    case And => "&&"
    case Or => "||"
  }

  /** The operator spelled `s`, if any: the list the parser tests a symbol against. */
  function OpFromSymbol(s: string): (r: Option<BinaryOp>)
    ensures r.Some? ==> OpSymbol(r.value) == s
  {
    if s == "+" then Some(Add)
    else if s == "-" then Some(Sub)
    else if s == "*" then Some(Mul)
    else if s == "/" then Some(Div)
    else if s == ">" then Some(Gt)
    else if s == "<" then Some(Lt)
    else if s == "==" then Some(Eq)
    else if s == "!=" then Some(Ne)
    else if s == ">=" then Some(Ge)
    else if s == "<=" then Some(Le)
    else if s == "&&" then Some(And)
    else if s == "||" then Some(Or)
    else None
  }

  lemma OpSymbolRoundTrip(op: BinaryOp)
    ensures OpFromSymbol(OpSymbol(op)) == Some(op)
  {
  }

  /** Exactly twelve spellings denote binary operators. */
  lemma OperatorSpellings(s: string)
    ensures OpFromSymbol(s).Some? <==>
      s in {"+", "-", "*", "/", ">", "<", ">=", "<=", "==", "!=", "&&", "||"}
  {
  }

  function UnarySymbol(op: UnaryOp): string
  {
    match op
    case Neg => "-"
    case Not => "!"
  }

  /** The prefix operator spelled `s`, if any. */
  function UnaryFromSymbol(s: string): (r: Option<UnaryOp>)
    ensures r.Some? ==> UnarySymbol(r.value) == s
  {
    if s == "-" then Some(Neg) else if s == "!" then Some(Not) else None
  }

  lemma UnarySymbolRoundTrip(op: UnaryOp)
    ensures UnaryFromSymbol(UnarySymbol(op)) == Some(op)
  {
  }
}
