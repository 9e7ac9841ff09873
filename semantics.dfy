/**
 * The traversal as a pure function: what one pass of the dispatcher does to the
 * value of `currentScope`, or which exception it throws. The imperative
 * `TypeInferer` is proved to follow it.
 */
module Semantics {
  import opened Wrappers
  import opened Syntax
  import opened Errors
  import opened Operators
  import opened Scope

  /** The checker's services: symbol resolution and the operator table. */
  datatype Context<T> = Context(symbolAt: Node -> Option<string>, operators: LanguageOperators<T>)

  /** The value of `currentScope`: None outside any function, else the scope's records. */
  type State<T> = Option<Records<T>>

  /**
   * One binary operand with a symbol: the constraint for operand position `slot`.
   * A missing scope is found first, then a missing signature, then an unknown name.
   */
  function OperandConstraint<T>(name: string, token: Token, sig: Option<ApplicationCallType<T>>,
                                slot: nat, s: State<T>): (r: Result<State<T>, Failure>)
    requires sig.Some? ==> slot < |sig.value.parameters|
    ensures s.None? ==> r == Err(NoCurrentScope)
    ensures s.Some? && sig.None? ==> r == Err(NoOperatorSignature(token))
    ensures s.Some? && sig.Some? ==> (r.Err? <==> name !in s.value)
    ensures s.Some? && sig.Some? && r.Err? ==> r.error == UnknownParameter(name)
    ensures r.Ok? ==> r.value.Some?
  {
    if s.None? then Err(NoCurrentScope)
    else if sig.None? then Err(NoOperatorSignature(token))
    else
      var m :- Constrain(s.value, name, sig.value.parameters[slot]);
      Ok(Some(m))
  }

  /** The constraint-collection step of a binary expression, after both operands. */
  function Collect<T>(ctx: Context<T>, left: Option<string>, token: Token, right: Option<string>,
                      s: State<T>): (r: Result<State<T>, Failure>)
    requires Binary(ctx.operators)
    ensures left.None? && right.None? ==> r == Ok(s)
    ensures r.Ok? ==> (r.value.Some? <==> s.Some?)
  {
    if left.None? && right.None? then Ok(s)
    else
      var sig := GetOperatorType(ctx.operators, token);
      var s1 :- if left.Some? then OperandConstraint(left.value, token, sig, 0, s) else Ok(s);
      if right.Some? then OperandConstraint(right.value, token, sig, 1, s1) else Ok(s1)
  }

  /**
   * The check after a function body: each declared parameter, in order, must hold
   * exactly one known type in the body's scope `inner`.
   */
  function CheckSolved<T>(names: seq<string>, inner: State<T>): (o: Outcome<Failure>)
    ensures o.Pass? <==> names == [] || (inner.Some? && forall n :: n in names ==> n in inner.value && |inner.value[n]| == 1)
  {
    if names == [] then Pass
    else if inner.None? then Fail(NoCurrentScope)
    else if names[0] !in inner.value then Fail(NoParameterRecord(names[0]))
    else if |inner.value[names[0]]| != 1 then Fail(WeirdKnownTypesLength(names[0], |inner.value[names[0]]|))
    else CheckSolved(names[1..], inner)
  }

  /** Traversal of one node from scope state `s`. */
  function Eval<T>(n: Node, ctx: Context<T>, s: State<T>): (r: Result<State<T>, Failure>)
    requires Binary(ctx.operators)
    ensures r.Ok? ==> (r.value.Some? <==> s.Some?)
    decreases n
  {
    match n
    case SourceFile(statements) => EvalEach(statements, ctx, s)
    case ExpressionStatement(e) => Eval(e, ctx, s)
    case StringLiteral(_) => Ok(s)
    case FunctionDeclaration(_, parameters, body) =>
      var inner :- if body.None? then Err(MissingNode) else Eval(body.value, ctx, Some(EmptyRecords(parameters)));
      if CheckSolved(parameters, inner).Fail? then Err(CheckSolved(parameters, inner).error)
      else Ok(s)
    case Block(statements) => EvalEach(statements, ctx, s)
    case ReturnStatement(e) => if e.None? then Err(MissingNode) else Eval(e.value, ctx, s)
    case BinaryExpression(left, token, right) =>
      var s1 :- Eval(left, ctx, s);
      var s2 :- Eval(right, ctx, s1);
      Collect(ctx, ctx.symbolAt(left), token, ctx.symbolAt(right), s2)
    case Identifier(_) => Ok(s)
    case FirstLiteralToken(_) => Ok(s)
    case CallExpression(callee, arguments) =>
      var s1 :- EvalEach(arguments, ctx, s);
      Eval(callee, ctx, s1)
    case Other(_) => Ok(s)
  }

  /** Traversal of a list of nodes, first to last, stopping at the first exception. */
  function EvalEach<T>(ns: seq<Node>, ctx: Context<T>, s: State<T>): (r: Result<State<T>, Failure>)
    requires Binary(ctx.operators)
    ensures r.Ok? ==> (r.value.Some? <==> s.Some?)
    decreases ns
  {
    if ns == [] then Ok(s)
    else
      var s1 :- Eval(ns[0], ctx, s);
      EvalEach(ns[1..], ctx, s1)
  }
}
