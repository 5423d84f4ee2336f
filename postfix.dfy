/**
 * The expressions the stack reducers are fed: trees over names and the four arithmetic operators,
 * written in postfix order as token lists by each reducer's own module.
 */
module Postfix {
  datatype Tree = Var(name: string) | Apply(op: char, left: Tree, right: Tree)

  predicate IsArithOp(c: char)
  {
    c in "+-*/"
  }

  /** Every operator of the tree is one of the four the reducers handle. */
  predicate Arithmetic(t: Tree)
  {
    match t
    case Var(_) => true
    case Apply(op, l, r) => IsArithOp(op) && Arithmetic(l) && Arithmetic(r)
  }

  /** The names of the tree, left to right. */
  function Names(t: Tree): seq<string>
  {
    match t
    case Var(n) => [n]
    case Apply(_, l, r) => Names(l) + Names(r)
  }
}
