/** The part of TypeScript's syntax tree that the inferer dispatches on. */
module Syntax {
  import opened Wrappers

  /** An operator token. Only `*` matters to the inferer; every other kind is `OtherToken`. */
  datatype Token = AsteriskToken | OtherToken(kind: nat)

  /**
   * A syntax node. A node kind the dispatcher does not recognise is `Other(kind)`.
   * A function declaration keeps only its parameters' names, and a declaration
   * without a body (`function f(x);`) has `body == None`; a `return;` without an
   * expression has `returnExpression == None`.
   */
  datatype Node =
    | SourceFile(statements: seq<Node>)
    | ExpressionStatement(expression: Node)
    | StringLiteral(text: string)
    | FunctionDeclaration(name: string, parameters: seq<string>, body: Option<Node>)
    | Block(statements: seq<Node>)
    | ReturnStatement(returnExpression: Option<Node>)
    | BinaryExpression(left: Node, operatorToken: Token, right: Node)
    | Identifier(escapedText: string)
    | FirstLiteralToken(text: string)
    | CallExpression(expression: Node, arguments: seq<Node>)
    | Other(kind: nat)
}
