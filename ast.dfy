/**
 * The PL/0 syntax tree the parser hands to the code generator. Operator and
 * sign tags are the parser's own strings (`PLUS`, `MINUS`, `TIMES`, `DIVIDES`,
 * `LT`, ...), because the handlers compare them as strings and an unexpected
 * tag has a visible effect.
 */
module Ast {

  /** One `(operator-tag, operand)` pair following the first operand of a term or an expression. */
  datatype Operand = Operand(op: string, arg: Expr)

  datatype Expr =
    /** `('EXPRESSION', sign, term, (tag, term)...)`; `sign` is `MINUS` for a leading minus */
    | Expression(sign: string, first: Expr, rest: seq<Operand>)
    /** `('TERM', factor, (tag, factor)...)` */
    | Term(first: Expr, rest: seq<Operand>)
    | Number(value: int)
    | Name(id: string)

  datatype Condition = Condition(lhs: Expr, op: string, rhs: Expr)

  datatype Stmt =
    | While(cond: Condition, body: Stmt)
    | If(cond: Condition, body: Stmt)
    /** `target := value` */
    | Set(target: string, value: Expr)
    | Call(callee: string)
    | Print(arg: Expr)
    /** `begin s1; s2; ... end` */
    | Begin(stmts: seq<Stmt>)

  datatype ConstDecl = ConstDecl(name: string, value: int)

  /** A block: its three declaration groups in grammar order, then its statement. */
  datatype Block = Block(consts: seq<ConstDecl>, vars: seq<string>, procs: seq<ProcDecl>, body: Stmt)

  datatype ProcDecl = ProcDecl(name: string, block: Block)

  datatype Program = Program(block: Block)
}
