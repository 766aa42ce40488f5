/**
 * What a PL/0 expression or condition denotes, as a reference for the code
 * the generator writes: running an expression's tokens on the Retro machine
 * leaves exactly its value on top of the stack, and a condition's tokens
 * leave its flag.
 *
 * The denotation follows the generator's reading of the tree: a leading minus
 * negates the whole sum, and a tag a handler does not know (such as `MODULO`
 * in a term) gives no value.
 */
module Evaluation {
  import opened Wrappers
  import opened Ast
  import opened Scopes
  import opened Emission
  import opened Retro
  import opened Handlers

  /** One operator of a term (`TIMES`, `DIVIDES`) or of an expression (`PLUS`, `MINUS`). */
  function Combine(e: Expr, op: string, a: int, b: int): Option<int>
    requires e.Term? || e.Expression?
  {
    if e.Term? then
      if op == "TIMES" then Some(a * b)
      else if op == "DIVIDES" && b != 0 then Some(TruncDiv(a, b))
      else None
    else if op == "PLUS" then Some(a + b)
    else if op == "MINUS" then Some(a - b)
    else None
  }

  /**
   * The value of an expression under scope stack `env`, with the variables'
   * storage in `mem`; `None` for an unbound name, a procedure used as a value,
   * a variable with no storage, a division by zero or an unknown tag.
   */
  function Eval(e: Expr, env: seq<Frame>, mem: Memory): Option<int>
    decreases e, 1
  {
    match e
    case Number(n) => Some(n)
    case Name(x) =>
      (match Lookup(env, x)
       case Some(Variable(storage)) => if storage in mem then Some(mem[storage]) else None
       case Some(Constant(v)) => Some(v)
       case _ => None)
    case Term(_, rest) => Fold(e, |rest|, env, mem)
    case Expression(sign, _, rest) =>
      var v := Fold(e, |rest|, env, mem);
      if v.Some? && sign == "MINUS" then Some(-v.value) else v
  }

  /** The first operand combined, left to right, with the first `n` pairs. */
  function Fold(e: Expr, n: nat, env: seq<Frame>, mem: Memory): Option<int>
    requires (e.Term? || e.Expression?) && n <= |e.rest|
    decreases e, 0, n
  {
    if n == 0 then Eval(e.first, env, mem)
    else
      var pair := e.rest[n - 1];
      assert pair in e.rest;
      var acc, arg := Fold(e, n - 1, env, mem), Eval(pair.arg, env, mem);
      if acc.None? || arg.None? then None else Combine(e, pair.op, acc.value, arg.value)
  }

  /**
   * An expression with a value is written without an error, and its tokens
   * push exactly that value: the result of the expression is on top of the
   * stack, above what was there before.
   */
  lemma {:induction false} ExprLeavesValue(e: Expr, env: seq<Frame>, mem: Memory, s: Stack)
    requires Eval(e, env, mem).Some?
    ensures ExprCode(e, env).err.None?
    ensures Run(ExprCode(e, env).tokens, s, mem) == Some(s + [Eval(e, env, mem).value])
    decreases e, 1
  {
    match e
    case Number(n) =>
      PushLiteral(n, s, mem);
    case Name(x) =>
      NameLeavesValue(x, env, mem, s);
    case Term(first, rest) =>
      OperatorChainShape(e, env);
      FoldLeavesValue(e, |rest|, env, mem, s);
      assert ExprCode(e, env).tokens == ExprCode(first, env).tokens + OperandsCode(e, |rest|, env).tokens + [];
    case Expression(sign, first, rest) =>
      OperatorChainShape(e, env);
      FoldLeavesValue(e, |rest|, env, mem, s);
      NegateStep(ExprCode(first, env).tokens + OperandsCode(e, |rest|, env).tokens, sign, Fold(e, |rest|, env, mem).value, s, mem);
  }

  /**
   * `accept_print` of an expression with a value: the tokens before the closing
   * `putn nl` leave exactly that value on top of the stack for `putn` to print.
   */
  lemma PrintLeavesValue(v: Expr, env: seq<Frame>, mem: Memory, s: Stack)
    requires Eval(v, env, mem).Some?
    ensures var c := StmtCode(Print(v), env);
      c.err.None? && 2 <= |c.tokens| && c.tokens[|c.tokens| - 2..] == ["putn", "nl"] &&
      Run(c.tokens[..|c.tokens| - 2], s, mem) == Some(s + [Eval(v, env, mem).value])
  {
    ExprLeavesValue(v, env, mem, s);
    PrintOrder(v, env);
    var value := ExprCode(v, env).tokens;
    var c := StmtCode(Print(v), env);
    assert c.tokens[..|c.tokens| - 2] == value;
  }

  /** A variable is fetched from its storage, a constant pushed as a literal between two comments. */
  lemma NameLeavesValue(x: string, env: seq<Frame>, mem: Memory, s: Stack)
    requires Eval(Name(x), env, mem).Some?
    ensures ExprCode(Name(x), env).err.None?
    ensures Run(ExprCode(Name(x), env).tokens, s, mem) == Some(s + [Eval(Name(x), env, mem).value])
  {
    match Lookup(env, x) {
      case Some(Variable(storage)) => LoadStep(storage, s, mem);
      case Some(Constant(v)) => CommentedLiteralStep(v, s, mem);
    }
  }

  /** `@<storage>` pushes what the storage holds. */
  lemma LoadStep(storage: string, s: Stack, mem: Memory)
    requires storage in mem
    ensures Run(["@" + storage], s, mem) == Some(s + [mem[storage]])
  {
    var token := "@" + storage;
    assert token[1..] == storage && token[0] == '@';
    assert !IsBinary(token);
  }

  /** `(a) #<v> (b)` pushes `v`: the comments leave the stack alone. */
  lemma CommentedLiteralStep(v: int, s: Stack, mem: Memory)
    ensures Run(["(a)", NumberToken(v), "(b)"], s, mem) == Some(s + [v])
  {
    PushLiteral(v, s, mem);
    RunAppend(["(a)"], [NumberToken(v), "(b)"], s, mem);
    RunAppend([NumberToken(v)], ["(b)"], s, mem);
    assert ["(a)"] + [NumberToken(v), "(b)"] == ["(a)", NumberToken(v), "(b)"];
    assert [NumberToken(v)] + ["(b)"] == [NumberToken(v), "(b)"];
  }

  /** Code that pushes `v`, followed by the sign's token, pushes `v` negated exactly when the sign is `MINUS`. */
  lemma NegateStep(code: seq<string>, sign: string, v: int, s: Stack, mem: Memory)
    requires Run(code, s, mem) == Some(s + [v])
    ensures Run(code + NegateToken(sign), s, mem) == Some(s + [if sign == "MINUS" then -v else v])
  {
    RunAppend(code, NegateToken(sign), s, mem);
    if sign == "MINUS" {
      assert (s + [v])[..|s|] == s;
    } else {
      assert code + [] == code;
    }
  }

  /** The first operand and the first `n` pairs push the value of the left-to-right fold. */
  lemma {:induction false} FoldLeavesValue(e: Expr, n: nat, env: seq<Frame>, mem: Memory, s: Stack)
    requires (e.Term? || e.Expression?) && n <= |e.rest|
    requires Fold(e, n, env, mem).Some?
    ensures ExprCode(e.first, env).err.None? && OperandsCode(e, n, env).err.None?
    ensures Run(ExprCode(e.first, env).tokens + OperandsCode(e, n, env).tokens, s, mem) == Some(s + [Fold(e, n, env, mem).value])
    decreases e, 0, n
  {
    var first := ExprCode(e.first, env).tokens;
    if n == 0 {
      ExprLeavesValue(e.first, env, mem, s);
      assert first + [] == first;
    } else {
      var pair := e.rest[n - 1];
      assert pair in e.rest;
      assert Fold(e, n - 1, env, mem).Some? && Eval(pair.arg, env, mem).Some?;
      var acc, arg := Fold(e, n - 1, env, mem).value, Eval(pair.arg, env, mem).value;
      assert Combine(e, pair.op, acc, arg).Some?;
      FoldLeavesValue(e, n - 1, env, mem, s);
      ExprLeavesValue(pair.arg, env, mem, s + [acc]);
      assert s + [acc] + [arg] == s + [acc, arg];
      var before, argTokens, op := OperandsCode(e, n - 1, env).tokens, ExprCode(pair.arg, env).tokens, OperatorToken(e, pair.op);
      assert OperandsCode(e, n, env).tokens == before + (argTokens + op);
      AppendAssoc(first, before, argTokens + op);
      AppendAssoc(first + before, argTokens, op);
      RunAppend(first + before + argTokens, op, s, mem);
      RunAppend(first + before, argTokens, s, mem);
      OperatorStep(e, pair.op, acc, arg, s, mem);
    }
  }

  /** The operator token of a known tag combines the two values on top of the stack. */
  lemma OperatorStep(e: Expr, op: string, a: int, b: int, s: Stack, mem: Memory)
    requires (e.Term? || e.Expression?) && Combine(e, op, a, b).Some?
    ensures Run(OperatorToken(e, op), s + [a, b], mem) == Some(s + [Combine(e, op, a, b).value])
  {
    var t := s + [a, b];
    assert t[|t| - 2] == a && t[|t| - 1] == b && t[..|t| - 2] == s;
  }

  /** The comparison a `rel_ops` tag names. */
  function Compare(op: string, a: int, b: int): bool
    requires op in RelOps
  {
    match op
    case "LT" => a < b
    case "LTE" => a <= b
    case "GT" => a > b
    case "GTE" => a >= b
    case "E" => a == b
    case _ => a != b
  }

  /** Whether a condition holds; `None` when a side has no value or the operator is not in `rel_ops`. */
  function Holds(c: Condition, env: seq<Frame>, mem: Memory): Option<bool> {
    var a, b := Eval(c.lhs, env, mem), Eval(c.rhs, env, mem);
    if a.None? || b.None? || c.op !in RelOps then None else Some(Compare(c.op, a.value, b.value))
  }

  /** A condition's tokens push Retro's flag for whether it holds. */
  lemma CondLeavesFlag(c: Condition, env: seq<Frame>, mem: Memory, s: Stack)
    requires Holds(c, env, mem).Some?
    ensures CondCode(c, env).err.None?
    ensures Run(CondCode(c, env).tokens, s, mem) == Some(s + [Flag(Holds(c, env, mem).value)])
  {
    var a, b := Eval(c.lhs, env, mem).value, Eval(c.rhs, env, mem).value;
    var lhs, rhs := ExprCode(c.lhs, env).tokens, ExprCode(c.rhs, env).tokens;
    CondShape(c, env);
    ExprLeavesValue(c.lhs, env, mem, s);
    ExprLeavesValue(c.rhs, env, mem, s + [a]);
    RunAppend(lhs, rhs, s, mem);
    RunAppend(lhs + rhs, [RelOps[c.op]], s, mem);
    assert s + [a] + [b] == s + [a, b];
    RelationStep(c.op, a, b, s, mem);
  }

  /** The Retro word of a `rel_ops` tag replaces the two values on top of the stack by the comparison's flag. */
  lemma RelationStep(op: string, a: int, b: int, s: Stack, mem: Memory)
    requires op in RelOps
    ensures Run([RelOps[op]], s + [a, b], mem) == Some(s + [Flag(Compare(op, a, b))])
  {
    var t := s + [a, b];
    assert t[|t| - 2] == a && t[|t| - 1] == b && t[..|t| - 2] == s;
  }

  /**
   * A term with a tag it does not know, such as `a MODULO b`, leaves both
   * operands on the stack instead of one value.
   */
  lemma UnknownTagLeavesBothOperands(a: Expr, b: Expr, env: seq<Frame>, mem: Memory, s: Stack)
    requires Eval(a, env, mem).Some? && Eval(b, env, mem).Some?
    ensures Run(ExprCode(Term(a, [Operand("MODULO", b)]), env).tokens, s, mem) ==
      Some(s + [Eval(a, env, mem).value, Eval(b, env, mem).value])
  {
    var va := Eval(a, env, mem).value;
    ExprLeavesValue(a, env, mem, s);
    ExprLeavesValue(b, env, mem, s + [va]);
    ModuloWritesNoOperator(a, b, env);
    RunAppend(ExprCode(a, env).tokens, ExprCode(b, env).tokens, s, mem);
    assert s + [va] + [Eval(b, env, mem).value] == s + [va, Eval(b, env, mem).value];
  }

  /** `-a + b` computes `-(a + b)`, not `(-a) + b`. */
  lemma LeadingMinusComputesNegatedSum(a: Expr, b: Expr, env: seq<Frame>, mem: Memory, s: Stack)
    requires Eval(a, env, mem).Some? && Eval(b, env, mem).Some?
    ensures var e := Expression("MINUS", Term(a, []), [Operand("PLUS", Term(b, []))]);
      Run(ExprCode(e, env).tokens, s, mem) == Some(s + [-(Eval(a, env, mem).value + Eval(b, env, mem).value)])
  {
    var e := Expression("MINUS", Term(a, []), [Operand("PLUS", Term(b, []))]);
    var va, vb := Eval(a, env, mem).value, Eval(b, env, mem).value;
    assert Eval(Term(a, []), env, mem) == Fold(Term(a, []), 0, env, mem) == Some(va);
    assert Eval(Term(b, []), env, mem) == Fold(Term(b, []), 0, env, mem) == Some(vb);
    assert Fold(e, 0, env, mem) == Some(va);
    assert Fold(e, 1, env, mem) == Some(va + vb);
    assert Eval(e, env, mem) == Some(-(va + vb));
    ExprLeavesValue(e, env, mem, s);
  }
}
