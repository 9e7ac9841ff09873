/** The exceptions the inferer can throw while collecting constraints. */
module Errors {
  import opened Syntax

  datatype Failure =
      /** `constrainParameter` asserted that the name is a registered parameter. */
    | UnknownParameter(name: string)
      /** After a function body, a parameter did not hold exactly one known type. */
    | WeirdKnownTypesLength(name: string, length: nat)
      /** A scope method was called while `currentScope` was null (outside any function). */
    | NoCurrentScope
      /** The operator has no signature, and its missing `parameters` was read. */
    | NoOperatorSignature(token: Token)
      /** The dispatcher was handed no node (the expression of a bare `return;`). */
    | MissingNode
      /** `getParameter` found no record for a declared parameter. */
    | NoParameterRecord(name: string)
}
