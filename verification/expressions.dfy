/**
  The typed expression tree of logic.go:27-31. The source keeps its operands in a
  `[]interface{}` holding either a `string` or an `*Expression`; here that choice is
  the closed variant `Operand`, so the source's fallback type-switch branches have
  no counterpart.
*/
module Expressions {

  datatype Operand =
    | Feature(token: string)
    | Sub(expr: Expression)

  /**
    `verb` is the normalised operator name, `rate` its threshold: 0 for `none_of`,
    -1 for `all_of` (meaning "every operand"), 1 for `any_of`, n for `n_of`.
  */
  datatype Expression = Expression(verb: string, rate: int, subj: seq<Operand>)
}
