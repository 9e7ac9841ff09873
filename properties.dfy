/** Properties of the traversal specification. */
module Properties {
  import opened Wrappers
  import opened Syntax
  import opened Errors
  import opened Operators
  import opened Scope
  import opened Semantics

  /** Visiting `a + b` is visiting `a`, then `b` from where `a` left off. */
  lemma {:induction false} EvalEachAppend<T>(a: seq<Node>, b: seq<Node>, ctx: Context<T>, s: State<T>)
    requires Binary(ctx.operators)
    ensures var r := EvalEach(a, ctx, s);
            EvalEach(a + b, ctx, s) == if r.Ok? then EvalEach(b, ctx, r.value) else Err(r.error)
    decreases a
  {
    if a != [] {
      assert (a + b)[0] == a[0];
      assert (a + b)[1..] == a[1..] + b;
      match Eval(a[0], ctx, s)
      case Ok(s1) => EvalEachAppend(a[1..], b, ctx, s1);
      case Err(_) =>
    } else {
      assert a + b == b;
    }
  }

  /** A call visits every argument, in order, and then the callee expression. */
  lemma CallArgumentsBeforeCallee<T>(callee: Node, arguments: seq<Node>, ctx: Context<T>, s: State<T>)
    requires Binary(ctx.operators)
    ensures Eval(CallExpression(callee, arguments), ctx, s) == EvalEach(arguments + [callee], ctx, s)
  {
    EvalEachAppend(arguments, [callee], ctx, s);
    match EvalEach(arguments, ctx, s)
    case Ok(s1) =>
      assert [callee][1..] == [];
    case Err(_) =>
  }

  /** A binary expression visits the left operand, then the right, and only then collects. */
  lemma BinaryOperandsFirst<T>(left: Node, token: Token, right: Node, ctx: Context<T>, s: State<T>)
    requires Binary(ctx.operators)
    ensures var r := EvalEach([left, right], ctx, s);
            Eval(BinaryExpression(left, token, right), ctx, s)
            == if r.Ok? then Collect(ctx, ctx.symbolAt(left), token, ctx.symbolAt(right), r.value) else Err(r.error)
  {
    assert [left, right][1..] == [right];
    if Eval(left, ctx, s).Ok? {
      var s1 := Eval(left, ctx, s).value;
      assert [right][1..] == [];
      assert EvalEach([left, right], ctx, s) == EvalEach([right], ctx, s1);
      if Eval(right, ctx, s1).Ok? {
        var s2 := Eval(right, ctx, s1).value;
        assert EvalEach([right], ctx, s1) == EvalEach([], ctx, s2) == Ok(s2);
      }
    }
  }

  /** With no symbol on either side, a binary expression only does what its operands do. */
  lemma BinaryWithoutSymbols<T>(left: Node, token: Token, right: Node, ctx: Context<T>, s: State<T>)
    requires Binary(ctx.operators)
    requires ctx.symbolAt(left).None? && ctx.symbolAt(right).None?
    ensures Eval(BinaryExpression(left, token, right), ctx, s) == EvalEach([left, right], ctx, s)
  {
    BinaryOperandsFirst(left, token, right, ctx, s);
  }

  /**
   * When an operand names a parameter, the left one receives signature slot 0 and
   * the right one slot 1, left first.
   */
  lemma CollectSlots<T>(ctx: Context<T>, a: string, b: string, m: Records<T>)
    requires Binary(ctx.operators)
    requires a in m && b in m
    ensures var p := ctx.operators.numericBinaryOperator.parameters;
            var m1 := m[a := m[a] + [p[0]]];
            Collect(ctx, Some(a), AsteriskToken, Some(b), Some(m)) == Ok(Some(m1[b := m1[b] + [p[1]]]))
            && Collect(ctx, Some(a), AsteriskToken, None, Some(m)) == Ok(Some(m1))
            && Collect(ctx, None, AsteriskToken, Some(b), Some(m)) == Ok(Some(m[b := m[b] + [p[1]]]))
  {
  }

  /** `x * x` appends two entries to `x`: slot 0, then slot 1. */
  lemma SameParameterTwice<T>(ctx: Context<T>, x: string, m: Records<T>)
    requires Binary(ctx.operators)
    requires x in m
    ensures var p := ctx.operators.numericBinaryOperator.parameters;
            Collect(ctx, Some(x), AsteriskToken, Some(x), Some(m)) == Ok(Some(m[x := m[x] + [p[0], p[1]]]))
  {
    var p := ctx.operators.numericBinaryOperator.parameters;
    CollectSlots(ctx, x, x, m);
    var m1 := m[x := m[x] + [p[0]]];
    assert m[x] + [p[0]] + [p[1]] == m[x] + [p[0], p[1]];
    assert m1[x := m1[x] + [p[1]]] == m[x := m[x] + [p[0], p[1]]];
  }

  /**
   * Collection fails exactly when some operand has a symbol and either there is no
   * current scope, the operator has no signature, or a symbol is not a parameter.
   */
  lemma CollectFailure<T>(ctx: Context<T>, left: Option<string>, token: Token, right: Option<string>, s: State<T>)
    requires Binary(ctx.operators)
    ensures Collect(ctx, left, token, right, s).Err?
        <==> (left.Some? || right.Some?)
             && (s.None? || token != AsteriskToken
                 || (left.Some? && left.value !in s.value)
                 || (right.Some? && right.value !in s.value))
    ensures (left.Some? || right.Some?) && s.None? ==> Collect(ctx, left, token, right, s) == Err(NoCurrentScope)
    ensures (left.Some? || right.Some?) && s.Some? && token != AsteriskToken
            ==> Collect(ctx, left, token, right, s) == Err(NoOperatorSignature(token))
  {
  }

  /** State `t` extends `s`: same presence, same parameters, every list only grown at its end. */
  ghost predicate Grows<T>(s: State<T>, t: State<T>) {
    (s.None? <==> t.None?)
    && (s.Some? ==> t.value.Keys == s.value.Keys
                    && forall k :: k in s.value ==> s.value[k] <= t.value[k])
  }

  lemma GrowsTransitive<T>(s: State<T>, t: State<T>, u: State<T>)
    requires Grows(s, t) && Grows(t, u)
    ensures Grows(s, u)
  {
  }

  lemma CollectGrows<T>(ctx: Context<T>, left: Option<string>, token: Token, right: Option<string>, s: State<T>)
    requires Binary(ctx.operators)
    ensures Collect(ctx, left, token, right, s).Ok? ==> Grows(s, Collect(ctx, left, token, right, s).value)
  {
  }

  /**
   * Constraint records are never removed from: a completed traversal keeps the
   * scope present or absent, keeps its parameters, and only appends to their lists.
   */
  lemma {:induction false} EvalGrows<T>(n: Node, ctx: Context<T>, s: State<T>)
    requires Binary(ctx.operators)
    ensures Eval(n, ctx, s).Ok? ==> Grows(s, Eval(n, ctx, s).value)
    decreases n
  {
    match n
    case SourceFile(statements) => EvalEachGrows(statements, ctx, s);
    case ExpressionStatement(e) => EvalGrows(e, ctx, s);
    case StringLiteral(_) =>
    case FunctionDeclaration(_, _, _) =>
    case Block(statements) => EvalEachGrows(statements, ctx, s);
    case ReturnStatement(e) =>
      if e.Some? {
        EvalGrows(e.value, ctx, s);
      }
    case BinaryExpression(left, token, right) =>
      EvalGrows(left, ctx, s);
      if Eval(left, ctx, s).Ok? {
        var s1 := Eval(left, ctx, s).value;
        EvalGrows(right, ctx, s1);
        if Eval(right, ctx, s1).Ok? {
          var s2 := Eval(right, ctx, s1).value;
          CollectGrows(ctx, ctx.symbolAt(left), token, ctx.symbolAt(right), s2);
          GrowsTransitive(s, s1, s2);
          if Eval(n, ctx, s).Ok? {
            GrowsTransitive(s, s2, Eval(n, ctx, s).value);
          }
        }
      }
    case Identifier(_) =>
    case FirstLiteralToken(_) =>
    case CallExpression(callee, arguments) =>
      EvalEachGrows(arguments, ctx, s);
      if EvalEach(arguments, ctx, s).Ok? {
        var s1 := EvalEach(arguments, ctx, s).value;
        EvalGrows(callee, ctx, s1);
        if Eval(callee, ctx, s1).Ok? {
          GrowsTransitive(s, s1, Eval(callee, ctx, s1).value);
        }
      }
    case Other(_) =>
  }

  lemma {:induction false} EvalEachGrows<T>(ns: seq<Node>, ctx: Context<T>, s: State<T>)
    requires Binary(ctx.operators)
    ensures EvalEach(ns, ctx, s).Ok? ==> Grows(s, EvalEach(ns, ctx, s).value)
    decreases ns
  {
    if ns != [] {
      EvalGrows(ns[0], ctx, s);
      if Eval(ns[0], ctx, s).Ok? {
        var s1 := Eval(ns[0], ctx, s).value;
        EvalEachGrows(ns[1..], ctx, s1);
        if EvalEach(ns[1..], ctx, s1).Ok? {
          GrowsTransitive(s, s1, EvalEach(ns[1..], ctx, s1).value);
        }
      }
    }
  }

  /** A dispatcher that meets an unrecognised node skips it and goes on with its siblings. */
  lemma UnknownKindSkipped<T>(kind: nat, rest: seq<Node>, ctx: Context<T>, s: State<T>)
    requires Binary(ctx.operators)
    ensures Eval(Other(kind), ctx, s) == Ok(s)
    ensures EvalEach([Other(kind)] + rest, ctx, s) == EvalEach(rest, ctx, s)
  {
  }

  /** With every name registered, the end-of-body check can only fail on a count. */
  lemma {:induction false} CheckSolvedCountsOnly<T>(names: seq<string>, m: Records<T>)
    requires forall n :: n in names ==> n in m
    ensures var o := CheckSolved(names, Some(m));
            o.Fail? ==> o.error.WeirdKnownTypesLength? && o.error.name in names
                        && o.error.length == |m[o.error.name]| != 1
  {
    if names != [] && |m[names[0]]| == 1 {
      CheckSolvedCountsOnly(names[1..], m);
    }
  }

  /**
   * A function declaration either throws or completes with the enclosing scope as it
   * was; it completes exactly when its body does and leaves every declared
   * parameter with exactly one known type.
   */
  lemma FunctionDeclarationOutcome<T>(name: string, parameters: seq<string>, body: Node, ctx: Context<T>, s: State<T>)
    requires Binary(ctx.operators)
    ensures Eval(FunctionDeclaration(name, parameters, None), ctx, s) == Err(MissingNode)
    ensures var r := Eval(FunctionDeclaration(name, parameters, Some(body)), ctx, s);
            var inner := Eval(body, ctx, Some(EmptyRecords(parameters)));
            (r.Ok? ==> r.value == s)
            && (r.Ok? <==> inner.Ok? && inner.value.Some?
                           && forall p :: p in parameters ==> p in inner.value.value && |inner.value.value[p]| == 1)
  {
  }

  /** The faults a correct caller never causes: no scope, or no record for a declared parameter. */
  predicate InternalFault(f: Failure) {
    f == NoCurrentScope || f.NoParameterRecord?
  }

  lemma CollectInScopeFaults<T>(ctx: Context<T>, left: Option<string>, token: Token, right: Option<string>, m: Records<T>)
    requires Binary(ctx.operators)
    ensures var r := Collect(ctx, left, token, right, Some(m));
            r.Err? ==> r.error.NoOperatorSignature? || r.error.UnknownParameter?
  {
  }

  /**
   * Inside a function, the traversal never dereferences a missing scope or a missing
   * parameter record: those faults can only come from code outside every function.
   */
  lemma {:induction false} NoInternalFaultInFunction<T>(n: Node, ctx: Context<T>, m: Records<T>)
    requires Binary(ctx.operators)
    ensures Eval(n, ctx, Some(m)).Err? ==> !InternalFault(Eval(n, ctx, Some(m)).error)
    decreases n
  {
    match n
    case SourceFile(statements) => EachNoInternalFault(statements, ctx, m);
    case ExpressionStatement(e) => NoInternalFaultInFunction(e, ctx, m);
    case StringLiteral(_) =>
    case FunctionDeclaration(_, parameters, body) =>
      if body.Some? {
        var e := EmptyRecords(parameters);
        NoInternalFaultInFunction(body.value, ctx, e);
        EvalGrows(body.value, ctx, Some(e));
        if Eval(body.value, ctx, Some(e)).Ok? {
          CheckSolvedCountsOnly(parameters, Eval(body.value, ctx, Some(e)).value.value);
        }
      }
    case Block(statements) => EachNoInternalFault(statements, ctx, m);
    case ReturnStatement(e) =>
      if e.Some? {
        NoInternalFaultInFunction(e.value, ctx, m);
      }
    case BinaryExpression(left, token, right) =>
      NoInternalFaultInFunction(left, ctx, m);
      EvalGrows(left, ctx, Some(m));
      if Eval(left, ctx, Some(m)).Ok? {
        var m1 := Eval(left, ctx, Some(m)).value.value;
        NoInternalFaultInFunction(right, ctx, m1);
        EvalGrows(right, ctx, Some(m1));
        if Eval(right, ctx, Some(m1)).Ok? {
          CollectInScopeFaults(ctx, ctx.symbolAt(left), token, ctx.symbolAt(right), Eval(right, ctx, Some(m1)).value.value);
        }
      }
    case Identifier(_) =>
    case FirstLiteralToken(_) =>
    case CallExpression(callee, arguments) =>
      EachNoInternalFault(arguments, ctx, m);
      EvalEachGrows(arguments, ctx, Some(m));
      if EvalEach(arguments, ctx, Some(m)).Ok? {
        NoInternalFaultInFunction(callee, ctx, EvalEach(arguments, ctx, Some(m)).value.value);
      }
    case Other(_) =>
  }

  lemma {:induction false} EachNoInternalFault<T>(ns: seq<Node>, ctx: Context<T>, m: Records<T>)
    requires Binary(ctx.operators)
    ensures EvalEach(ns, ctx, Some(m)).Err? ==> !InternalFault(EvalEach(ns, ctx, Some(m)).error)
    decreases ns
  {
    if ns != [] {
      NoInternalFaultInFunction(ns[0], ctx, m);
      EvalGrows(ns[0], ctx, Some(m));
      if Eval(ns[0], ctx, Some(m)).Ok? {
        EachNoInternalFault(ns[1..], ctx, Eval(ns[0], ctx, Some(m)).value.value);
      }
    }
  }

  /**
   * From any starting state, top level included, a declared parameter always has a
   * record when the end-of-body check looks for it.
   */
  lemma {:induction false} NoMissingRecord<T>(n: Node, ctx: Context<T>, s: State<T>)
    requires Binary(ctx.operators)
    ensures Eval(n, ctx, s).Err? ==> !Eval(n, ctx, s).error.NoParameterRecord?
    decreases n
  {
    if s.Some? {
      NoInternalFaultInFunction(n, ctx, s.value);
    } else {
      match n
      case SourceFile(statements) => EachNoMissingRecord(statements, ctx, s);
      case ExpressionStatement(e) => NoMissingRecord(e, ctx, s);
      case FunctionDeclaration(_, _, body) =>
        if body.Some? {
          NoInternalFaultInFunction(n, ctx, map[]);
        }
      case Block(statements) => EachNoMissingRecord(statements, ctx, s);
      case ReturnStatement(e) =>
        if e.Some? {
          NoMissingRecord(e.value, ctx, s);
        }
      case BinaryExpression(left, _, right) =>
        NoMissingRecord(left, ctx, s);
        if Eval(left, ctx, s).Ok? {
          NoMissingRecord(right, ctx, Eval(left, ctx, s).value);
        }
      case CallExpression(callee, arguments) =>
        EachNoMissingRecord(arguments, ctx, s);
        if EvalEach(arguments, ctx, s).Ok? {
          NoMissingRecord(callee, ctx, EvalEach(arguments, ctx, s).value);
        }
      case _ =>
    }
  }

  lemma {:induction false} EachNoMissingRecord<T>(ns: seq<Node>, ctx: Context<T>, s: State<T>)
    requires Binary(ctx.operators)
    ensures EvalEach(ns, ctx, s).Err? ==> !EvalEach(ns, ctx, s).error.NoParameterRecord?
    decreases ns
  {
    if ns != [] {
      NoMissingRecord(ns[0], ctx, s);
      if Eval(ns[0], ctx, s).Ok? {
        EachNoMissingRecord(ns[1..], ctx, Eval(ns[0], ctx, s).value);
      }
    }
  }
}
