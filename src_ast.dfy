/**
 * The syntax tree of the first-generation language (src/parser/ast.ts): eight
 * kinds of node, ten binary operators and unary minus.
 */
module SrcAst {
  import opened Wrappers

  /** `+ - * / > < >= <= == !=`; there is no `&&` or `||`. */
  datatype BinaryOp = Add | Sub | Mul | Div | Gt | Lt | Ge | Le | Eq | Ne

  /**
   * One constructor per node interface. The only unary operator is `-`, so a
   * unary node carries no operator; an if-statement's consequence is the body
   * of a block and it has no alternate; an assignment target is a name.
   */
  datatype Node =
    | Assignment(identifier: string, value: Node)
    | BinaryExpression(operator: BinaryOp, left: Node, right: Node)
    | UnaryExpression(argument: Node)
    | NumberLiteral(number: real)
    | Identifier(name: string)
    | Print(argument: Node)
    | BlockStatement(body: seq<Node>)
    | IfStatement(condition: Node, consequence: seq<Node>)

  /** The operator's spelling in source text. */
  function OpSymbol(op: BinaryOp): (s: string)
    ensures 1 <= |s| <= 2
  {
    match op
    case Add => "+"
    case Sub => "-"
    case Mul => "*"
    case Div => "/"
    case Gt => ">"
    case Lt => "<"
    case Ge => ">="
    case Le => "<="
    case Eq => "=="
    case Ne => "!="
  }

  /** The operator spelled `s`, if any. */
  function OpFromSymbol(s: string): (r: Option<BinaryOp>)
    ensures r.Some? ==> OpSymbol(r.value) == s
  {
    if s == "+" then Some(Add)
    else if s == "-" then Some(Sub)
    else if s == "*" then Some(Mul)
    else if s == "/" then Some(Div)
    else if s == ">" then Some(Gt)
    else if s == "<" then Some(Lt)
    else if s == ">=" then Some(Ge)
    else if s == "<=" then Some(Le)
    else if s == "==" then Some(Eq)
    else if s == "!=" then Some(Ne)
    else None
  }

  /** Every operator is recovered from its spelling, so no two share one. */
  lemma OpSymbolRoundTrip(op: BinaryOp)
    ensures OpFromSymbol(OpSymbol(op)) == Some(op)
  {
  }

  /** Exactly ten spellings denote operators; `&&` and `||` are not among them. */
  lemma OperatorSpellings(s: string)
    ensures OpFromSymbol(s).Some? <==> s in {"+", "-", "*", "/", ">", "<", ">=", "<=", "==", "!="}
    ensures OpFromSymbol("&&").None? && OpFromSymbol("||").None?
  {
  }

  /** The nodes that denote values: literals, names, and operators over them. */
  predicate IsExpression(n: Node)
  {
    match n
    case BinaryExpression(_, l, r) => IsExpression(l) && IsExpression(r)
    case UnaryExpression(a) => IsExpression(a)
    case NumberLiteral(_) => true
    case Identifier(_) => true
    case _ => false
  }
}
