/** Concrete programs and what the traversal makes of them. */
module Scenarios {
  import opened Wrappers
  import opened Syntax
  import opened Errors
  import opened Operators
  import opened Scope
  import opened Semantics
  import opened Properties
  import opened Inferer

  /** A resolver under which every identifier has a symbol named after it and nothing else does. */
  function IdentifierSymbol(n: Node): Option<string> {
    if n.Identifier? then Some(n.escapedText) else None
  }

  function BasicContext<T>(numeric: T): Context<T> {
    Context(IdentifierSymbol, BuildLanguageOperators(numeric))
  }

  /** `function name(x) { return x <token> operand; }` */
  function UnaryFunction(name: string, token: Token, operand: Node): Node {
    FunctionDeclaration(name, ["x"],
      Some(Block([ReturnStatement(Some(BinaryExpression(Identifier("x"), token, operand)))])))
  }

  /** `'use strict'; function foo(x) { return x * 10; } foo('Hello, world!');` */
  const BasicProgram: Node :=
    SourceFile([
      ExpressionStatement(StringLiteral("use strict")),
      UnaryFunction("foo", AsteriskToken, FirstLiteralToken("10")),
      ExpressionStatement(CallExpression(Identifier("foo"), [StringLiteral("Hello, world!")]))
    ])

  /** The body of a `UnaryFunction` does exactly what its one binary expression does. */
  lemma UnaryBody<T>(name: string, token: Token, operand: Node, ctx: Context<T>, s: State<T>)
    requires Binary(ctx.operators)
    ensures Eval(UnaryFunction(name, token, operand).body.value, ctx, s)
         == Eval(BinaryExpression(Identifier("x"), token, operand), ctx, s)
  {
    var product := BinaryExpression(Identifier("x"), token, operand);
    var ret := ReturnStatement(Some(product));
    assert UnaryFunction(name, token, operand).body.value == Block([ret]);
    assert Eval(ret, ctx, s) == Eval(product, ctx, s);
    assert [ret][1..] == [];
    if Eval(product, ctx, s).Ok? {
      assert EvalEach([ret], ctx, s) == EvalEach([], ctx, Eval(product, ctx, s).value);
    }
  }

  /** In `foo`'s body, `x * 10` leaves `x` with exactly one entry: the numeric type. */
  lemma FooBodyConstrainsX<T>(numeric: T)
    ensures Eval(UnaryFunction("foo", AsteriskToken, FirstLiteralToken("10")).body.value,
                 BasicContext(numeric), Some(EmptyRecords(["x"])))
         == Ok(Some(map["x" := [numeric]]))
  {
    var ctx := BasicContext(numeric);
    var e: Records<T> := EmptyRecords(["x"]);
    assert e == map["x" := []];
    var product := BinaryExpression(Identifier("x"), AsteriskToken, FirstLiteralToken("10"));
    UnaryBody("foo", AsteriskToken, FirstLiteralToken("10"), ctx, Some(e));
    assert ctx.symbolAt(product.left) == Some("x") && ctx.symbolAt(product.right) == None;
    assert Eval(product, ctx, Some(e)) == Collect(ctx, Some("x"), AsteriskToken, None, Some(e));
    CollectSlots(ctx, "x", "x", e);
    assert e["x" := e["x"] + [numeric]] == map["x" := [numeric]];
  }

  /** The whole program is traversed without an exception, and ends outside any function. */
  lemma BasicProgramCompletes<T>(numeric: T)
    ensures Eval(BasicProgram, BasicContext(numeric), None) == Ok(None)
  {
    var ctx := BasicContext(numeric);
    var foo := UnaryFunction("foo", AsteriskToken, FirstLiteralToken("10"));
    FooBodyConstrainsX(numeric);
    FunctionDeclarationOutcome(foo.name, foo.parameters, foo.body.value, ctx, None);
    var stmts := BasicProgram.statements;
    assert stmts[1..] == [foo, stmts[2]] && [foo, stmts[2]][1..] == [stmts[2]];
  }

  /** `x * x` gives `x` two entries, so the end-of-body check rejects the function. */
  lemma SquareRejected<T>(numeric: T)
    ensures Eval(UnaryFunction("square", AsteriskToken, Identifier("x")), BasicContext(numeric), None)
         == Err(WeirdKnownTypesLength("x", 2))
  {
  }

  /** A parameter the body never uses holds no type, and the function is rejected. */
  lemma UnusedParameterRejected<T>(numeric: T)
    ensures Eval(FunctionDeclaration("f", ["x"], Some(Block([]))), BasicContext(numeric), None)
         == Err(WeirdKnownTypesLength("x", 0))
  {
  }

  /** `x + 1` names a parameter but `+` has no signature, so its missing slots are read. */
  lemma UnknownOperatorFails<T>(numeric: T, plus: nat)
    ensures Eval(UnaryFunction("inc", OtherToken(plus), FirstLiteralToken("1")), BasicContext(numeric), None)
         == Err(NoOperatorSignature(OtherToken(plus)))
  {
    var ctx := BasicContext(numeric);
    var e: Records<T> := EmptyRecords(["x"]);
    assert e == map["x" := []];
    assert GetOperatorType(ctx.operators, OtherToken(plus)) == None;
    var sum := BinaryExpression(Identifier("x"), OtherToken(plus), FirstLiteralToken("1"));
    assert Collect(ctx, Some("x"), OtherToken(plus), None, Some(e)) == Err(NoOperatorSignature(OtherToken(plus)));
    assert Eval(sum, ctx, Some(e)) == Err(NoOperatorSignature(OtherToken(plus)));
    assert Eval(ReturnStatement(Some(sum)), ctx, Some(e)) == Err(NoOperatorSignature(OtherToken(plus)));
    assert EvalEach([ReturnStatement(Some(sum))], ctx, Some(e)) == Err(NoOperatorSignature(OtherToken(plus)));
  }

  /** `y * 2;` outside every function: there is no current scope to record into. */
  lemma TopLevelProductFails<T>(numeric: T)
    ensures Eval(ExpressionStatement(BinaryExpression(Identifier("y"), AsteriskToken, FirstLiteralToken("2"))),
                 BasicContext(numeric), None)
         == Err(NoCurrentScope)
  {
  }

  /** `function f(x) { return x * y; }`: `y` is not a parameter, so the scope's assertion fails. */
  lemma NonParameterOperandFails<T>(numeric: T)
    ensures Eval(UnaryFunction("f", AsteriskToken, Identifier("y")), BasicContext(numeric), None)
         == Err(UnknownParameter("y"))
  {
    var ctx := BasicContext(numeric);
    var e: Records<T> := EmptyRecords(["x"]);
    assert e == map["x" := []];
    UnaryBody("f", AsteriskToken, Identifier("y"), ctx, Some(e));
  }

  /** `function f() { return; }`: the bare return hands the dispatcher no node. */
  lemma BareReturnFails<T>(numeric: T)
    ensures Eval(FunctionDeclaration("f", [], Some(Block([ReturnStatement(None)]))), BasicContext(numeric), None)
         == Err(MissingNode)
  {
  }

  /** The repository's own test, run on the imperative inferer: it completes. */
  method VerifyStraightForwardTypes<T>(numeric: T) returns (o: Outcome<Failure>)
    ensures o == Pass
  {
    var inferer := new TypeInferer(numeric, IdentifierSymbol);
    assert inferer.Ctx() == BasicContext(numeric);
    BasicProgramCompletes(numeric);
    o := inferer.TraverseAST(BasicProgram);
  }
}
