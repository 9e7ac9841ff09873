/** The operator knowledge base: which call signature an operator imposes on its operands. */
module Operators {
  import opened Wrappers
  import opened Syntax

  /** A synthetic call signature: the types the operands must have, in operand order. */
  datatype ApplicationCallType<T> = ApplicationCallType(parameters: seq<T>)

  /** The table of known operators; multiplication is its only row. */
  datatype LanguageOperators<T> = LanguageOperators(numericBinaryOperator: ApplicationCallType<T>)

  /** Every signature in the table has a slot for the left and for the right operand. */
  predicate Binary<T>(ops: LanguageOperators<T>) {
    |ops.numericBinaryOperator.parameters| == 2
  }

  /**
   * Builds the table from the checker's contextual type of a numeric literal,
   * `numeric`, which is queried once per slot.
   */
  function BuildLanguageOperators<T>(numeric: T): (ops: LanguageOperators<T>)
    ensures Binary(ops)
  {
    LanguageOperators(ApplicationCallType([numeric, numeric]))
  }

  /** The signature of an operator token, or None when the table has no row for it. */
  function GetOperatorType<T>(ops: LanguageOperators<T>, token: Token): (r: Option<ApplicationCallType<T>>)
    ensures r.Some? <==> token == AsteriskToken
    ensures r.Some? ==> r.value == ops.numericBinaryOperator
  {
    match token
    case AsteriskToken => Some(ops.numericBinaryOperator)
    case OtherToken(_) => None
  }

  /** In the built table, `*` is (numeric, numeric) and no other token has a signature. */
  lemma BuiltTable<T>(numeric: T, token: Token)
    ensures var r := GetOperatorType(BuildLanguageOperators(numeric), token);
            (token == AsteriskToken ==> r.Some? && |r.value.parameters| == 2
                                        && r.value.parameters[0] == numeric
                                        && r.value.parameters[1] == numeric)
            && (token != AsteriskToken ==> r == None)
  {
  }
}
