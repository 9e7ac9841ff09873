# tsinfer constraint collection, modelled in Dafny

tsinfer infers parameter types for JavaScript functions from how each parameter
is used. Its core is the constraint-collection engine of `TypeInferer` in
`infer.js`:

- a **dispatcher** (`traverseAST` and the `traverse*` handlers) walks the
  syntax tree by node kind;
- a **scope** (`FunctionScope`) maps each parameter name of the function being
  walked to a record whose `knownTypes` list grows as evidence is found;
- an **operator table** (`buildLanguageOperators`, `getOperatorType`) gives `*`
  the signature `(numeric, numeric)`. A binary expression is treated as a call
  of that signature: the left operand's parameter receives slot 0, the right
  operand's slot 1.

While walking a function declaration the dispatcher installs a fresh scope in
its `currentScope` field. After the body it demands exactly one known type per
parameter, then puts the previous scope back.

The model has these modules:

- `Syntax`: the node kinds the dispatcher knows, plus `Other(kind)` for any other kind.
- `Errors`: the exceptions the code can throw.
- `Operators`: the operator table.
- `Scope`: the `FunctionScope` class and the pure functions that specify it.
- `Semantics`: the whole traversal as a pure function, `Eval`, from a node and
  the value of `currentScope` to the new value or an exception.
- `Inferer`: the `TypeInferer` class. Its methods keep the source's
  imperative shape: loops, and the save/overwrite/restore of `currentScope`.
  Each method is proved to follow `Eval`.
- `Properties`: lemmas about `Eval`.
- `Scenarios`: concrete programs, including the repository's own test.

The TypeScript checker's services become inputs:
- `getSymbolAtLocation(node).escapedName` is a total function `symbolAt: Node -> Option<string>`.
- `getContextualType` of the literal `0` is one value `numeric` of an opaque type `T`.

Every crash of the JavaScript code is an explicit `Failure`:
- `UnknownParameter`: the assertion in `constrainParameter`.
- `WeirdKnownTypesLength`: the assertion after a function body.
- `NoCurrentScope`: `currentScope` is null outside every function.
- `NoOperatorSignature`: the `parameters` of a missing signature are read for any operator other than `*`.
- `MissingNode`: `traverseAST` is handed an undefined node. This happens for the expression of a bare `return;` and for the body of a declaration without one (`function f(x);`).
- `NoParameterRecord`: `getParameter` returns null for a declared parameter. `NoMissingRecord` proves this never happens, from any starting state.

For one operand, JavaScript evaluates `this.currentScope.constrainParameter` before its arguments. So the checks come in this order: null scope, then missing signature, then the assertion.

Wherever the code crashes, the model reproduces the crash and does not skip the case or report it:
- A parameter must end its function with exactly one entry (infer.js:193). Two entries of the same type are rejected too, so `x * x` fails (`SquareRejected`).
- A parameter with no evidence also fails that check; it is not reported as unconstrained (`UnusedParameterRejected`).
- An operand with a symbol under any operator other than `*` reads the `parameters` of a missing signature (infer.js:141, 146). It is not skipped (`UnknownOperatorFails`).
- An operand whose symbol is not a parameter of the current function fails the assertion in `constrainParameter` (infer.js:277). It is not ignored (`NonParameterOperandFails`).
- `currentScope` is not restored when the body throws (infer.js:205 runs only on completion; there is no `try`/`finally`). So `TraverseFunctionDeclaration` promises restoration only when it completes.

## Model

| member | source | states |
|---|---|---|
| `Operators.BuildLanguageOperators` | infer.js:282-297 | the table it builds gives every operator a slot for each of the two operands |
| `Operators.GetOperatorType` | infer.js:150-159 | a signature exists exactly for `AsteriskToken`, and it is the table's numeric binary signature |
| `Operators.BuiltTable` | infer.js:286-297 | in the built table `*` maps to two slots, both the numeric contextual type; every other token has no signature |
| `Scope.EmptyRecords` | infer.js:253-264 | registering the parameters gives every declared name an empty list and no other name a record |
| `Scope.Constrain` | infer.js:275-280 | fails with `UnknownParameter` exactly for an unregistered name; otherwise the same names, the named list grown by one with `t` last, all other lists unchanged |
| `Scope.FunctionScope.constructor` | infer.js:243-251 | a new scope for a function node starts with no records |
| `Scope.FunctionScope.MarkParameters` | infer.js:253-264 | the loop leaves the old records overwritten by an empty record per declared parameter |
| `Scope.FunctionScope.GetParameter` | infer.js:266-273 | returns the stored list of a registered parameter and None for any other name, reading and changing nothing else |
| `Scope.FunctionScope.ConstrainParameter` | infer.js:275-280 | appends in place as `Constrain` says, or fails and leaves the records unchanged |
| `Semantics.OperandConstraint` | infer.js:138-147 | one operand: a null scope fails with `NoCurrentScope`; otherwise a missing signature fails with `NoOperatorSignature`; otherwise it fails with `UnknownParameter` exactly when the name is not registered; on success a scope is present |
| `Semantics.Collect` | infer.js:128-147 | with no symbol on either side nothing changes; a completed collection keeps the scope present or absent |
| `Semantics.CheckSolved` | infer.js:182-195 | passes exactly when there are no parameters or every parameter has a record holding exactly one known type |
| `Semantics.Eval` | infer.js:69-223 | a completed traversal of any node keeps `currentScope` null or non-null as it was |
| `Semantics.EvalEach` | infer.js:166-171 | a completed traversal of a statement list keeps `currentScope` null or non-null as it was |
| `Inferer.TypeInferer.constructor` | infer.js:27-38 | a new inferer is outside every function (`currentScope` null, line 35); it also holds the checker's symbol resolution and the operator table built from the numeric contextual type, which the code sets up in `inferProgram` at lines 59-60 |
| `Inferer.TypeInferer.TraverseAST` | infer.js:69-97 | dispatching any node throws exactly what `Eval` throws; on completion `currentScope` is the same object again, holding the records `Eval` gives |
| `Inferer.TypeInferer.TraverseEach` | infer.js:218-223 | the loop over a file's statements, a block's statements (166-171) or a call's arguments (111-113) follows `EvalEach` and stops at the first exception |
| `Inferer.TypeInferer.ConstrainOperand` | infer.js:138-147 | constraining one operand in place follows `OperandConstraint` |
| `Inferer.TypeInferer.TraverseBinaryExpression` | infer.js:123-148 | left operand, right operand, then the constraints left before right, as `Eval` specifies |
| `Inferer.TypeInferer.TraverseFunctionDeclaration` | infer.js:173-206 | installs a fresh scope with the parameters registered, walks the body (failing on a missing one), checks each parameter in order and restores the previous scope, as `Eval` specifies |
| `Properties.EvalEachAppend` | infer.js:166-171 | statements are visited in order: visiting `a + b` is visiting `a`, then `b` from the state `a` left |
| `Properties.CallArgumentsBeforeCallee` | infer.js:109-115 | a call visits all its arguments, in order, before its callee expression |
| `Properties.BinaryOperandsFirst` | infer.js:124-133 | a binary expression visits the left operand, then the right, and only then collects constraints |
| `Properties.BinaryWithoutSymbols` | infer.js:128-133 | with no symbol on either operand, the expression changes nothing beyond what its operands do |
| `Properties.CollectSlots` | infer.js:138-147 | a left operand's parameter receives slot 0 and a right operand's slot 1, left first; a side without a symbol adds nothing |
| `Properties.SameParameterTwice` | infer.js:138-147 | `x * x` appends two entries to `x`: slot 0, then slot 1 |
| `Properties.CollectFailure` | infer.js:131-147 | collection fails exactly when some operand has a symbol and the scope is null, the operator is not `*`, or a symbol is not a parameter; the first two with which exception |
| `Properties.EvalGrows` | infer.js:259-279 | records are never removed: a completed traversal keeps the scope's parameter names and only appends to each list |
| `Properties.UnknownKindSkipped` | infer.js:91-96 | an unrecognised node changes nothing and does not stop its siblings from being visited |
| `Properties.CheckSolvedCountsOnly` | infer.js:192-194 | with every name registered, the end-of-body check can fail only with a wrong count, naming a parameter whose list does not hold exactly one entry |
| `Properties.FunctionDeclarationOutcome` | infer.js:173-206 | a declaration without a body fails with `MissingNode`; one with a body completes exactly when the body completes and every parameter holds exactly one known type, and then leaves the enclosing scope as it was |
| `Properties.NoInternalFaultInFunction` | infer.js:138-147 | inside a function the traversal never meets a null scope or a missing record; those faults come only from code outside every function |
| `Properties.NoMissingRecord` | infer.js:192-193 | from any starting state, top level included, the end-of-body check always finds a record for each declared parameter |
| `Scenarios.FooBodyConstrainsX` | test/basic.js:8-18 | in `function foo(x) { return x * 10; }` the body leaves `x` with exactly one entry, the numeric type |
| `Scenarios.BasicProgramCompletes` | test/basic.js:7-22 | the repository's test program is traversed without an exception and ends outside every function |
| `Scenarios.VerifyStraightForwardTypes` | test/basic.js:7-22 | the imperative inferer, built and run on the test program, completes |
| `Scenarios.SquareRejected` | infer.js:193-194 | `function square(x) { return x * x; }` fails the exactly-one check with two entries |
| `Scenarios.UnusedParameterRejected` | infer.js:193-194 | a parameter the body never uses fails the exactly-one check with zero entries |
| `Scenarios.UnknownOperatorFails` | infer.js:135-141 | `x + 1` inside a function fails on the missing signature |
| `Scenarios.TopLevelProductFails` | infer.js:138-140 | `y * 2;` outside every function fails on the null scope |
| `Scenarios.NonParameterOperandFails` | infer.js:275-280 | `x * y` where `y` is not a parameter fails the scope's assertion for `y` |
| `Scenarios.BareReturnFails` | infer.js:161-164 | `return;` hands the dispatcher no node and fails |

## Left out

- Program construction, compiler options and the checker handle (`inferProgram`, `TS_COMPILER_OPTIONS`) are left out. The checker's answers are inputs: `symbolAt` and `numeric`.
- `Inferer.TypeInferer.constructor` also performs `inferProgram`'s checker and operator-table setup (infer.js:59-60). In the code the constructor leaves both null until `inferProgram` runs.
- Real symbol resolution is left out. Nodes are values without positions, so two equal nodes resolve alike. In particular `Other(kind)` keeps only its kind, so `symbolAt` must give every unrecognised operand of one kind the same symbol (two different property accesses, say), while the code resolves each operand node on its own (infer.js:128-129). Only the symbol's escaped name is used, as in the code.
- Diagnostics reporting (`verifyDiagnostics`, `reportErrors`) and every `console.log` are left out. They are console I/O.
- The source-text splicing in `traverseFunctionDeclaration` is left out. Its line lookup, `split` calls and unused `newLine` have no effect on any state the code keeps.
- The scope's `parent`, `type` and the record's `type` tag are left out. They are constants that nothing reads.
- `Scope.FunctionScope.GetParameter`: returns a copy of the `knownTypes` list, not the shared record object. Aliasing of records is not modelled, and the code never mutates a record it got from `getParameter`.
- Parameters are modelled by name only, so a destructuring pattern without an `escapedText` and an anonymous function are not modelled.
- The trivial handlers `traverseIdentifier`, `traverseFirstLiteralToken`, `traverseStringLiteral`, `traverseExpressionStatement` and `traverseReturnStatement` are arms of `TraverseAST`, not separate methods.
- Every signature in the operator table must have two slots (`Binary`). The code only ever builds such a table.
