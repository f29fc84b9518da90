/**
 * The tree-walking evaluator of src/runtime/interpreter.ts over the
 * first-generation syntax tree. All statements share one mutable variable
 * map, which `evaluate` hands back so that variables persist from one call to
 * the next; `print` appends the printed value to an output sequence.
 *
 * Numbers are reals. Where JavaScript would coerce a boolean to a number or
 * produce an infinity or NaN, the model reports an error instead.
 */
module Interpreter {
  import opened Wrappers
  import opened SrcAst
  import Tokens
  import SrcParser

  /** A runtime value: a number or the boolean a comparison yields. */
  datatype Value = Num(n: real) | Bool(b: bool)

  datatype RuntimeError =
      /** Reading a name the variable map does not hold. */
    | UndefinedVariable(name: string)
      /** Arithmetic, ordering or negation with a boolean operand, which JavaScript would coerce. */
    | Coercion
      /** Division by zero, which JavaScript answers with an infinity or NaN. */
    | DivisionByZero
      /** A statement node used where a value is needed. */
    | StatementInExpression

  /** JavaScript truthiness of the values the model has: a non-zero number, or `true`. */
  predicate Truthy(v: Value)
    ensures Truthy(v) <==> v != Num(0.0) && v != Bool(false)
  {
    match v
    case Num(x) => x != 0.0
    case Bool(b) => b
  }

  /** A binary operator applied to two numbers. */
  function NumericOp(op: BinaryOp, x: real, y: real): Result<Value, RuntimeError>
  {
    match op
    case Add => Ok(Num(x + y))
    case Sub => Ok(Num(x - y))
    case Mul => Ok(Num(x * y))
    case Div => if y == 0.0 then Err(DivisionByZero) else Ok(Num(x / y))
    case Gt => Ok(Bool(x > y))
    case Lt => Ok(Bool(x < y))
    case Ge => Ok(Bool(x >= y))
    case Le => Ok(Bool(x <= y))
    case Eq => Ok(Bool(x == y))
    case Ne => Ok(Bool(x != y))
  }

  /**
   * A binary operator applied to two evaluated operands: `==` and `!=` are
   * JavaScript's `===` and `!==`, which never coerce; every other operator
   * needs two numbers.
   */
  function Apply(op: BinaryOp, l: Value, r: Value): (res: Result<Value, RuntimeError>)
    ensures op == Eq || op == Ne ==> res.Ok? && res.value.Bool?
    ensures res == Err(Coercion) <==> op != Eq && op != Ne && !(l.Num? && r.Num?)
    ensures res == Err(DivisionByZero) <==> op == Div && l.Num? && r == Num(0.0)
    ensures res.Err? ==> res == Err(Coercion) || res == Err(DivisionByZero)
  {
    if op == Eq then Ok(Bool(l == r))
    else if op == Ne then Ok(Bool(l != r))
    else if !(l.Num? && r.Num?) then Err(Coercion)
    else NumericOp(op, l.n, r.n)
  }

  /** The expression cases of `evalNode`: literal, name, unary minus and binary operator. */
  function EvalExpr(e: Node, variables: map<string, Value>): (res: Result<Value, RuntimeError>)
    ensures res.Ok? ==> IsValueNode(e)
    ensures res.Err? && res.error.UndefinedVariable? ==> res.error.name !in variables
  {
    match e
    case NumberLiteral(x) => Ok(Num(x))
    case Identifier(name) =>
      if name in variables then Ok(variables[name]) else Err(UndefinedVariable(name))
    case UnaryExpression(argument) =>
      var v :- EvalExpr(argument, variables);
      if v.Num? then Ok(Num(-v.n)) else Err(Coercion)
    case BinaryExpression(op, left, right) =>
      var l :- EvalExpr(left, variables);
      var r :- EvalExpr(right, variables);
      Apply(op, l, r)
    case Assignment(_, _) | Print(_) | BlockStatement(_) | IfStatement(_, _) => Err(StatementInExpression)
  }

  /** The four node kinds `evalNode` answers with a value. */
  predicate IsValueNode(n: Node)
  {
    n.NumberLiteral? || n.Identifier? || n.UnaryExpression? || n.BinaryExpression?
  }

  /** The variables and everything printed so far. */
  datatype State = State(variables: map<string, Value>, output: seq<Value>)

  /** The state a run leaves behind, and the error that stopped it, if one did. */
  datatype Outcome = Outcome(state: State, error: Option<RuntimeError>)

  /** The error of a failed evaluation, with the state left as it was. */
  function Stop(st: State, e: RuntimeError): Outcome
  {
    Outcome(st, Some(e))
  }

  /** `evalNode(node, ctx)` for its effect on the context. */
  function Exec(n: Node, st: State): (o: Outcome)
    ensures st.output <= o.state.output
    ensures st.variables.Keys <= o.state.variables.Keys
    decreases n
  {
    match n
    case Assignment(identifier, value) =>
      (match EvalExpr(value, st.variables)
       case Err(e) => Stop(st, e)
       case Ok(v) => Outcome(st.(variables := st.variables[identifier := v]), None))
    case Print(argument) =>
      (match EvalExpr(argument, st.variables)
       case Err(e) => Stop(st, e)
       case Ok(v) => Outcome(st.(output := st.output + [v]), None))
    case BlockStatement(body) => ExecSeq(body, st)
    case IfStatement(condition, consequence) =>
      (match EvalExpr(condition, st.variables)
       case Err(e) => Stop(st, e)
       case Ok(v) => if Truthy(v) then ExecSeq(consequence, st) else Outcome(st, None))
    case NumberLiteral(_) | Identifier(_) | UnaryExpression(_) | BinaryExpression(_, _, _) =>
      (match EvalExpr(n, st.variables)
       case Err(e) => Stop(st, e)
       case Ok(_) => Outcome(st, None))
  }

  /** The nodes in order, stopping at the first error with the state reached so far. */
  function ExecSeq(ns: seq<Node>, st: State): (o: Outcome)
    ensures st.output <= o.state.output
    ensures st.variables.Keys <= o.state.variables.Keys
    decreases ns
  {
    if |ns| == 0 then Outcome(st, None)
    else
      var o := Exec(ns[0], st);
      if o.error.Some? then o else ExecSeq(ns[1..], o.state)
  }

  // ---------------------------------------------------------------------------
  // The evaluator on a mutable context

  /** `RuntimeContext`, with the printed values kept beside the variables. */
  class RuntimeContext {
    var variables: map<string, Value>
    var output: seq<Value>

    /** The default context `{ variables: {} }`, with nothing printed. */
    constructor()
      ensures variables == map[] && output == []
    {
      variables := map[];
      output := [];
    }

    function Current(): State
      reads this
    {
      State(variables, output)
    }
  }

  function ErrorOf<T>(r: Result<T, RuntimeError>): Option<RuntimeError>
  {
    if r.Ok? then None else Some(r.error)
  }

  /** An evaluated value as the answer of `evalNode`. */
  function Answer(r: Result<Value, RuntimeError>): Result<Option<Value>, RuntimeError>
  {
    match r
    case Ok(v) => Ok(Some(v))
    case Err(e) => Err(e)
  }

  /**
   * `evalNode(node, ctx)`: the context ends as `Exec` says, and a value node
   * answers with its value (statements answer `undefined`, here `None`).
   */
  method EvalNode(node: Node, ctx: RuntimeContext) returns (r: Result<Option<Value>, RuntimeError>)
    modifies ctx
    ensures Exec(node, old(ctx.Current())) == Outcome(ctx.Current(), ErrorOf(r))
    ensures r.Ok? && IsValueNode(node) ==> r.value == Some(EvalExpr(node, old(ctx.variables)).value)
    ensures r.Ok? && !IsValueNode(node) ==> r.value.None?
    decreases node
  {
    match node
    case Assignment(identifier, value) =>
      var v :- EvalExpr(value, ctx.variables);
      ctx.variables := ctx.variables[identifier := v];
      return Ok(None);
    case Print(argument) =>
      var output :- EvalExpr(argument, ctx.variables);
      ctx.output := ctx.output + [output];
      return Ok(None);
    case BlockStatement(body) =>
      var error := EvalBody(body, ctx);
      return if error.Some? then Err(error.value) else Ok(None);
    case IfStatement(condition, consequence) =>
      var conditionValue :- EvalExpr(condition, ctx.variables);
      if Truthy(conditionValue) {
        var error := EvalBody(consequence, ctx);
        return if error.Some? then Err(error.value) else Ok(None);
      }
      return Ok(None);
    case NumberLiteral(_) | Identifier(_) | UnaryExpression(_) | BinaryExpression(_, _, _) =>
      return Answer(EvalExpr(node, ctx.variables));
  }

  /** The loop over a block's statements, all in the same context. */
  method EvalBody(body: seq<Node>, ctx: RuntimeContext) returns (error: Option<RuntimeError>)
    modifies ctx
    ensures ExecSeq(body, old(ctx.Current())) == Outcome(ctx.Current(), error)
    decreases body
  {
    for i := 0 to |body|
      invariant ExecSeq(body, old(ctx.Current())) == ExecSeq(body[i..], ctx.Current())
    {
      assert body[i..][1..] == body[i + 1..];
      var r := EvalNode(body[i], ctx);
      if r.Err? {
        return Some(r.error);
      }
    }
    return None;
  }

  /** `evaluate(ast, context)`: runs the nodes in order and hands back the very context it was given. */
  method Evaluate(ast: seq<Node>, context: RuntimeContext) returns (r: Result<RuntimeContext, RuntimeError>)
    modifies context
    ensures ExecSeq(ast, old(context.Current())) == Outcome(context.Current(), ErrorOf(r))
    ensures r.Ok? ==> r.value == context
  {
    for i := 0 to |ast|
      invariant ExecSeq(ast, old(context.Current())) == ExecSeq(ast[i..], context.Current())
    {
      assert ast[i..][1..] == ast[i + 1..];
      var _ :- EvalNode(ast[i], context);
    }
    return Ok(context);
  }

  /** `evaluate(ast)` with the default context. */
  method EvaluateFresh(ast: seq<Node>) returns (r: Result<RuntimeContext, RuntimeError>)
    ensures r.Ok? ==> fresh(r.value) && ExecSeq(ast, State(map[], [])) == Outcome(r.value.Current(), None)
    ensures r.Err? ==> ExecSeq(ast, State(map[], [])).error == Some(r.error)
  {
    var context := new RuntimeContext();
    r := Evaluate(ast, context);
  }

  // ---------------------------------------------------------------------------
  // What evaluation promises

  /**
   * Running two node lists one after the other on the same context is running
   * their concatenation: the second picks up the variables and output the
   * first left, which is why `evaluate` handing back its context lets state
   * persist between calls.
   */
  lemma {:induction false} RunsCompose(a: seq<Node>, b: seq<Node>, st: State)
    ensures ExecSeq(a + b, st) ==
      (var o := ExecSeq(a, st); if o.error.Some? then o else ExecSeq(b, o.state))
    decreases a
  {
    if |a| == 0 {
      assert a + b == b;
    } else {
      assert (a + b)[0] == a[0];
      assert (a + b)[1..] == a[1..] + b;
      var o := Exec(a[0], st);
      if o.error.None? {
        RunsCompose(a[1..], b, o.state);
      }
    }
  }

  /**
   * A block opens no scope: running a block and then more nodes is running
   * the block's statements and then those nodes, so assignments made inside
   * the block are visible after it.
   */
  lemma BlockOpensNoScope(body: seq<Node>, rest: seq<Node>, st: State)
    ensures ExecSeq([BlockStatement(body)] + rest, st) == ExecSeq(body + rest, st)
  {
    assert ([BlockStatement(body)] + rest)[0] == BlockStatement(body);
    assert ([BlockStatement(body)] + rest)[1..] == rest;
    RunsCompose(body, rest, st);
  }

  /**
   * An if-statement whose condition is truthy runs like a block of its
   * consequence; one whose condition is falsy changes nothing; one whose
   * condition fails stops with that error and changes nothing.
   */
  lemma IfRunsConsequenceIffTruthy(condition: Node, consequence: seq<Node>, st: State)
    ensures EvalExpr(condition, st.variables).Ok? && Truthy(EvalExpr(condition, st.variables).value) ==>
      Exec(IfStatement(condition, consequence), st) == Exec(BlockStatement(consequence), st)
    ensures EvalExpr(condition, st.variables).Ok? && !Truthy(EvalExpr(condition, st.variables).value) ==>
      Exec(IfStatement(condition, consequence), st) == Outcome(st, None)
    ensures EvalExpr(condition, st.variables).Err? ==>
      Exec(IfStatement(condition, consequence), st) == Outcome(st, Some(EvalExpr(condition, st.variables).error))
  {
  }

  /** The names the assignments inside a node write. */
  function Assigned(n: Node): set<string>
    decreases n
  {
    match n
    case Assignment(identifier, _) => {identifier}
    case BlockStatement(body) => AssignedIn(body)
    case IfStatement(_, consequence) => AssignedIn(consequence)
    case _ => {}
  }

  function AssignedIn(ns: seq<Node>): set<string>
    decreases ns
  {
    if |ns| == 0 then {} else Assigned(ns[0]) + AssignedIn(ns[1..])
  }

  /**
   * From `before` to `after` only the names in `names` changed: no variable
   * disappeared, every other name is bound as it was, and the output only grew.
   */
  predicate OnlyWrites(before: State, after: State, names: set<string>)
  {
    && before.output <= after.output
    && before.variables.Keys <= after.variables.Keys
    && forall x :: x in after.variables && x !in names ==>
         x in before.variables && after.variables[x] == before.variables[x]
  }

  /** A node writes only the names it assigns, keeps every variable, and only appends to the output. */
  lemma {:induction false} ExecOnlyWrites(n: Node, st: State)
    ensures OnlyWrites(st, Exec(n, st).state, Assigned(n))
    decreases n
  {
    match n
    case BlockStatement(body) => ExecSeqOnlyWrites(body, st);
    case IfStatement(condition, consequence) =>
      if EvalExpr(condition, st.variables).Ok? && Truthy(EvalExpr(condition, st.variables).value) {
        ExecSeqOnlyWrites(consequence, st);
      }
    case _ =>
  }

  lemma {:induction false} ExecSeqOnlyWrites(ns: seq<Node>, st: State)
    ensures OnlyWrites(st, ExecSeq(ns, st).state, AssignedIn(ns))
    decreases ns
  {
    if |ns| > 0 {
      var o := Exec(ns[0], st);
      ExecOnlyWrites(ns[0], st);
      if o.error.None? {
        ExecSeqOnlyWrites(ns[1..], o.state);
      }
    }
  }

  /**
   * An assignment binds exactly its name to the value of its right-hand side:
   * a following `print name;` prints that value, and no other name changes.
   */
  lemma AssignmentThenPrint(name: string, value: Node, st: State)
    requires EvalExpr(value, st.variables).Ok?
    ensures var after := ExecSeq([Assignment(name, value), Print(Identifier(name))], st);
      && after.error.None?
      && after.state.output == st.output + [EvalExpr(value, st.variables).value]
      && (forall y :: y != name ==> EvalExpr(Identifier(y), after.state.variables) == EvalExpr(Identifier(y), st.variables))
  {
    var v := EvalExpr(value, st.variables).value;
    var bound := st.(variables := st.variables[name := v]);
    var printed := bound.(output := st.output + [v]);
    var shown := [Print(Identifier(name))];
    assert Exec(Assignment(name, value), st) == Outcome(bound, None);
    assert Exec(Print(Identifier(name)), bound) == Outcome(printed, None) by {
      assert EvalExpr(Identifier(name), bound.variables) == Ok(v);
    }
    assert ExecSeq(shown, bound) == Outcome(printed, None) by {
      assert shown[1..] == [];
    }
    assert [Assignment(name, value)] + shown == [Assignment(name, value), Print(Identifier(name))];
    assert ExecSeq([Assignment(name, value)] + shown, st) == Outcome(printed, None) by {
      assert ([Assignment(name, value)] + shown)[1..] == shown;
    }
    forall y | y != name
      ensures EvalExpr(Identifier(y), printed.variables) == EvalExpr(Identifier(y), st.variables)
    {
    }
  }

  /** The names an expression reads. */
  function FreeVars(e: Node): set<string>
  {
    match e
    case Identifier(name) => {name}
    case UnaryExpression(argument) => FreeVars(argument)
    case BinaryExpression(_, left, right) => FreeVars(left) + FreeVars(right)
    case _ => {}
  }

  /** Two variable maps that agree on the names an expression reads give it the same value. */
  lemma {:induction false} EvalExprReadsOnlyFreeVars(e: Node, v1: map<string, Value>, v2: map<string, Value>)
    requires forall x :: x in FreeVars(e) ==> (x in v1 <==> x in v2) && (x in v1 ==> v1[x] == v2[x])
    ensures EvalExpr(e, v1) == EvalExpr(e, v2)
    decreases e
  {
    match e
    case UnaryExpression(argument) => EvalExprReadsOnlyFreeVars(argument, v1, v2);
    case BinaryExpression(_, left, right) =>
      EvalExprReadsOnlyFreeVars(left, v1, v2);
      EvalExprReadsOnlyFreeVars(right, v1, v2);
    case _ =>
  }

  /**
   * The left operand is evaluated first: its error wins over the right
   * operand's, and the right operand's error wins over the operator's.
   */
  lemma LeftOperandFirst(op: BinaryOp, left: Node, right: Node, variables: map<string, Value>)
    ensures EvalExpr(left, variables).Err? ==>
      EvalExpr(BinaryExpression(op, left, right), variables) == Err(EvalExpr(left, variables).error)
    ensures EvalExpr(left, variables).Ok? && EvalExpr(right, variables).Err? ==>
      EvalExpr(BinaryExpression(op, left, right), variables) == Err(EvalExpr(right, variables).error)
  {
  }

  /**
   * `==` and `!=` are strict equality and its negation: they never fail once
   * both operands have values, a number never equals a boolean, and exactly
   * one of them yields `true`.
   */
  lemma StrictEquality(left: Node, right: Node, variables: map<string, Value>)
    requires EvalExpr(left, variables).Ok? && EvalExpr(right, variables).Ok?
    ensures var eq := EvalExpr(BinaryExpression(Eq, left, right), variables);
      var ne := EvalExpr(BinaryExpression(Ne, left, right), variables);
      && eq.Ok? && ne.Ok? && eq.value.Bool? && ne.value.Bool? && eq.value.b != ne.value.b
      && (eq.value.b <==> EvalExpr(left, variables).value == EvalExpr(right, variables).value)
      && (EvalExpr(left, variables).value.Num? != EvalExpr(right, variables).value.Num? ==> !eq.value.b)
  {
  }

  /** Every variable holds a number. */
  predicate AllNumbers(variables: map<string, Value>)
  {
    forall x :: x in variables ==> variables[x].Num?
  }

  /**
   * An expression the parser builds, over variables that hold numbers, is a
   * number, or fails on an undefined name or a division by zero; it never
   * needs a coercion and never meets a statement.
   */
  lemma {:induction false} ParsedExpressionIsNumber(e: Node, variables: map<string, Value>)
    requires SrcParser.ParsedExpression(e) && AllNumbers(variables)
    ensures EvalExpr(e, variables).Ok? ==> EvalExpr(e, variables).value.Num?
    ensures EvalExpr(e, variables).Err? ==>
      EvalExpr(e, variables).error.UndefinedVariable? || EvalExpr(e, variables).error == DivisionByZero
    decreases e
  {
    match e
    case UnaryExpression(argument) => ParsedExpressionIsNumber(argument, variables);
    case BinaryExpression(_, left, right) =>
      ParsedExpressionIsNumber(left, variables);
      ParsedExpressionIsNumber(right, variables);
    case _ =>
  }

  /**
   * A program the parser builds keeps every variable a number, and stops only
   * on an undefined name or a division by zero.
   */
  lemma {:induction false} ParsedProgramStaysNumeric(ns: seq<Node>, st: State)
    requires forall s :: s in ns ==> SrcParser.ParsedStatement(s)
    requires AllNumbers(st.variables)
    ensures AllNumbers(ExecSeq(ns, st).state.variables)
    ensures ExecSeq(ns, st).error.Some? ==>
      ExecSeq(ns, st).error.value.UndefinedVariable? || ExecSeq(ns, st).error.value == DivisionByZero
    decreases ns
  {
    if |ns| > 0 {
      var s := ns[0];
      assert SrcParser.ParsedStatement(s);
      match s {
        case Print(e) => ParsedExpressionIsNumber(e, st.variables);
        case Assignment(_, e) => ParsedExpressionIsNumber(e, st.variables);
      }
      var o := Exec(s, st);
      if o.error.None? {
        assert forall t :: t in ns[1..] ==> t in ns;
        ParsedProgramStaysNumeric(ns[1..], o.state);
      }
    }
  }

  /**
   * Tokens that parse run without coercions: starting from the default
   * context, `evaluate` of a parse stops only on an undefined name or a
   * division by zero.
   */
  lemma ParseThenEvaluate(tokens: seq<Tokens.Token>)
    requires SrcParser.Program(tokens, 0).Ok?
    ensures var o := ExecSeq(SrcParser.Program(tokens, 0).value, State(map[], []));
      o.error.Some? ==> o.error.value.UndefinedVariable? || o.error.value == DivisionByZero
  {
    SrcParser.ProgramShape(tokens, 0);
    ParsedProgramStaysNumeric(SrcParser.Program(tokens, 0).value, State(map[], []));
  }
}
