/**
 * The constraint-collection engine of the inferer: a dispatcher over node kinds
 * that swaps `currentScope` around function bodies and records the types that
 * operators impose on parameters.
 */
module Inferer {
  import opened Wrappers
  import opened Syntax
  import opened Errors
  import opened Operators
  import opened Scope
  import opened Semantics

  class TypeInferer<T> {
    /** The symbol an operand node resolves to, by its escaped name. */
    const symbolAt: Node -> Option<string>
    const knownLanguageOperators: LanguageOperators<T>
    var currentScope: FunctionScope?<T>

    /**
     * A fresh inferer, outside any function, whose operator table is built from
     * the checker's numeric contextual type.
     */
    constructor (numeric: T, symbolAt: Node -> Option<string>)
      ensures knownLanguageOperators == BuildLanguageOperators(numeric)
      ensures this.symbolAt == symbolAt
      ensures currentScope == null
    {
      this.symbolAt := symbolAt;
      knownLanguageOperators := BuildLanguageOperators(numeric);
      currentScope := null;
    }

    function Ctx(): Context<T> {
      Context(symbolAt, knownLanguageOperators)
    }

    /** The value of `currentScope` as the specification sees it. */
    ghost function CurrentState(): State<T>
      reads this, currentScope
    {
      if currentScope == null then None else Some(currentScope.parameters)
    }

    /**
     * The outcome `o` agrees with the specified result `r`: the same exception, or
     * on completion `currentScope` is back to `before` and holds the specified state.
     */
    ghost predicate Follows(o: Outcome<Failure>, r: Result<State<T>, Failure>, before: FunctionScope?<T>)
      reads this, currentScope
    {
      match r
      case Err(e) => o == Fail(e)
      case Ok(s) => o == Pass && currentScope == before && CurrentState() == s
    }

    /** Dispatches on the node's kind; an unrecognised kind is skipped. */
    method TraverseAST(n: Node) returns (o: Outcome<Failure>)
      requires Binary(knownLanguageOperators)
      modifies this, currentScope
      ensures Follows(o, Eval(n, Ctx(), old(CurrentState())), old(currentScope))
      decreases n, 1
    {
      match n
      case SourceFile(statements) =>
        o := TraverseEach(statements);
      case ExpressionStatement(e) =>
        o := TraverseAST(e);
      case StringLiteral(_) =>
        o := Pass;
      case FunctionDeclaration(_, _, _) =>
        o := TraverseFunctionDeclaration(n);
      case Block(statements) =>
        o := TraverseEach(statements);
      case ReturnStatement(e) =>
        if e.None? {
          o := Fail(MissingNode);
        } else {
          o := TraverseAST(e.value);
        }
      case BinaryExpression(_, _, _) =>
        o := TraverseBinaryExpression(n);
      case Identifier(_) =>
        o := Pass;
      case FirstLiteralToken(_) =>
        o := Pass;
      case CallExpression(callee, arguments) =>
        o := TraverseEach(arguments);
        if o.Pass? {
          o := TraverseAST(callee);
        }
      case Other(_) =>
        o := Pass;
    }

    /** Visits the nodes in order: a block's or file's statements, a call's arguments. */
    method TraverseEach(ns: seq<Node>) returns (o: Outcome<Failure>)
      requires Binary(knownLanguageOperators)
      modifies this, currentScope
      ensures Follows(o, EvalEach(ns, Ctx(), old(CurrentState())), old(currentScope))
      decreases ns, 2
    {
      var i := 0;
      while i < |ns|
        invariant 0 <= i <= |ns|
        invariant currentScope == old(currentScope)
        invariant EvalEach(ns, Ctx(), old(CurrentState())) == EvalEach(ns[i..], Ctx(), CurrentState())
      {
        assert ns[i..][1..] == ns[i + 1..];
        o := TraverseAST(ns[i]);
        if o.Fail? {
          return;
        }
        i := i + 1;
      }
      o := Pass;
    }

    /** Records the operator's slot type on one operand's parameter. */
    method ConstrainOperand(name: string, token: Token, operatorType: Option<ApplicationCallType<T>>, slot: nat)
      returns (o: Outcome<Failure>)
      requires operatorType.Some? ==> slot < |operatorType.value.parameters|
      modifies currentScope
      ensures Follows(o, OperandConstraint(name, token, operatorType, slot, old(CurrentState())), old(currentScope))
    {
      // The record `getParameter` returns here is never used; only the null
      // dereference matters.
      if currentScope == null {
        return Fail(NoCurrentScope);
      }
      if operatorType.None? {
        return Fail(NoOperatorSignature(token));
      }
      o := currentScope.ConstrainParameter(name, operatorType.value.parameters[slot]);
    }

    /** Both operands first, then the operands' constraints, left before right. */
    method TraverseBinaryExpression(n: Node) returns (o: Outcome<Failure>)
      requires n.BinaryExpression?
      requires Binary(knownLanguageOperators)
      modifies this, currentScope
      ensures Follows(o, Eval(n, Ctx(), old(CurrentState())), old(currentScope))
      decreases n, 0
    {
      o := TraverseAST(n.left);
      if o.Fail? {
        return;
      }
      o := TraverseAST(n.right);
      if o.Fail? {
        return;
      }
      var leftSymbol := symbolAt(n.left);
      var rightSymbol := symbolAt(n.right);
      if leftSymbol.None? && rightSymbol.None? {
        return Pass;
      }
      var operatorType := GetOperatorType(knownLanguageOperators, n.operatorToken);
      if leftSymbol.Some? {
        o := ConstrainOperand(leftSymbol.value, n.operatorToken, operatorType, 0);
        if o.Fail? {
          return;
        }
      }
      if rightSymbol.Some? {
        o := ConstrainOperand(rightSymbol.value, n.operatorToken, operatorType, 1);
      }
    }

    /**
     * Installs a fresh scope with the declared parameters, traverses the body,
     * demands exactly one known type per parameter, and restores the previous scope.
     * An exception returns at once, without restoring `currentScope`.
     */
    method TraverseFunctionDeclaration(n: Node) returns (o: Outcome<Failure>)
      requires n.FunctionDeclaration?
      requires Binary(knownLanguageOperators)
      modifies this, currentScope
      ensures Follows(o, Eval(n, Ctx(), old(CurrentState())), old(currentScope))
      decreases n, 0
    {
      ghost var before := CurrentState();
      ghost var spec := Eval(n, Ctx(), before);
      var scope := new FunctionScope(n.name, n);
      var oldScope := currentScope;
      currentScope := scope;
      scope.MarkParameters();
      assert scope.parameters == EmptyRecords(n.parameters);
      if n.body.None? {
        assert spec == Err(MissingNode);
        return Fail(MissingNode);
      }
      ghost var inner := Eval(n.body.value, Ctx(), Some(EmptyRecords(n.parameters)));
      o := TraverseAST(n.body.value);
      if o.Fail? {
        assert spec == Err(inner.error);
        return;
      }
      ghost var check := CheckSolved(n.parameters, CurrentState());
      assert CurrentState() == inner.value;
      assert spec == if check.Fail? then Err(check.error) else Ok(before);
      var i := 0;
      while i < |n.parameters|
        invariant 0 <= i <= |n.parameters|
        invariant currentScope == scope
        invariant check == CheckSolved(n.parameters[i..], CurrentState())
      {
        assert n.parameters[i..][1..] == n.parameters[i + 1..];
        var paramName := n.parameters[i];
        var record := currentScope.GetParameter(paramName);
        if record.None? {
          return Fail(NoParameterRecord(paramName));
        }
        if |record.value| != 1 {
          return Fail(WeirdKnownTypesLength(paramName, |record.value|));
        }
        i := i + 1;
      }
      currentScope := oldScope;
      o := Pass;
    }
  }
}
