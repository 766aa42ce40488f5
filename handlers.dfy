/**
 * What the statement and expression handlers promise: the order of what an
 * assignment, a call, a value reference, a condition, a term and an
 * expression write, and when each one stops with an error.
 */
module Handlers {
  import opened Wrappers
  import opened Decimal
  import opened Ast
  import opened Scopes
  import opened Emission

  /**
   * `accept_set` writes the right-hand side before it looks at the target:
   * the target must be a variable, and a target of any other kind stops the
   * statement with the right-hand side's tokens already written.
   */
  lemma AssignmentOrder(x: string, v: Expr, env: seq<Frame>)
    ensures var c, rhs, target := StmtCode(Set(x, v), env), ExprCode(v, env), Lookup(env, x);
      rhs.tokens <= c.tokens &&
      (c.err.None? <==> rhs.err.None? && target.Some? && target.value.Variable?) &&
      (c.err.None? ==> c.tokens == rhs.tokens + ["!" + target.value.storage]) &&
      (rhs.err.None? && target.Some? && !target.value.Variable? ==>
        c.tokens == rhs.tokens && c.err == Some(InvalidAssignment(x, target.value)))
  {
  }

  /** `accept_call` accepts exactly the names bound to procedures and writes their entry label. */
  lemma CallResolution(x: string, env: seq<Frame>)
    ensures var c, callee := StmtCode(Call(x), env), Lookup(env, x);
      (c.err.None? <==> callee.Some? && callee.value.Procedure?) &&
      (c.err.None? ==> c.tokens == [callee.value.entry] && c.used == 0) &&
      (c.err.Some? ==> c.tokens == [])
  {
  }

  /**
   * `accept_name`: a variable or a constant may be used as a value, a procedure
   * may not; a variable is loaded with `@`, while a constant is written as a
   * literal that reads back as its value and is never a load.
   */
  lemma ValueReference(x: string, env: seq<Frame>)
    ensures var c, sym := ExprCode(Name(x), env), Lookup(env, x);
      (c.err.None? <==> sym.Some? && !sym.value.Procedure?) &&
      (c.err.Some? ==> c.tokens == []) &&
      (sym.Some? && sym.value.Variable? ==> c.tokens == ["@" + sym.value.storage])
    ensures var c, sym := ExprCode(Name(x), env), Lookup(env, x);
      sym.Some? && sym.value.Constant? ==>
        |c.tokens| == 3 && (forall t :: t in c.tokens ==> 0 < |t| && t[0] != '@') &&
        c.tokens[1][0] == '#' && ParseInt(c.tokens[1][1..]) == Some(sym.value.value)
  {
    var sym := Lookup(env, x);
    if sym.Some? && sym.value.Constant? {
      var v := sym.value.value;
      assert NumberToken(v)[1..] == IntToString(v);
      IntToStringRoundTrip(v);
    }
  }

  /**
   * `accept_print` writes its value, then `putn nl`; a value that stops with an
   * error stops the statement before `putn nl`.
   */
  lemma PrintOrder(v: Expr, env: seq<Frame>)
    ensures var c, value := StmtCode(Print(v), env), ExprCode(v, env);
      c.err == value.err && c.used == 0 &&
      c.tokens == if value.err.None? then value.tokens + ["putn", "nl"] else value.tokens
  {
  }

  /** A number is written as one `#` literal that reads back as the number. */
  lemma NumberLiteral(n: int)
    ensures var c := ExprCode(Number(n), []);
      c.err.None? && |c.tokens| == 1 && c.tokens[0][0] == '#' && ParseInt(c.tokens[0][1..]) == Some(n)
  {
    assert NumberToken(n)[1..] == IntToString(n);
    IntToStringRoundTrip(n);
  }

  /**
   * `accept_condition` writes the left side, the right side and then the Retro
   * word of the operator; an operator missing from `rel_ops` stops it after
   * both sides.
   */
  lemma ConditionOrder(c: Condition, env: seq<Frame>)
    ensures var r, lhs, rhs := CondCode(c, env), ExprCode(c.lhs, env), ExprCode(c.rhs, env);
      (r.err.None? <==> lhs.err.None? && rhs.err.None? && c.op in RelOps) &&
      (r.err.None? ==> r.tokens == lhs.tokens + rhs.tokens + [RelOps[c.op]]) &&
      (lhs.err.None? && rhs.err.None? && c.op !in RelOps ==>
        r.tokens == lhs.tokens + rhs.tokens && r.err == Some(UnknownRelation(c.op)))
  {
    CondShape(c, env);
  }

  /** The `rel_ops` table knows the six PL/0 comparisons, each with its own Retro word. */
  lemma RelOpsTable()
    ensures RelOps.Keys == {"LT", "LTE", "GT", "GTE", "E", "NE"}
    ensures forall a, b :: a in RelOps && b in RelOps && a != b ==> RelOps[a] != RelOps[b]
  {
  }

  /** The pairs of an expression are written the same whatever its sign. */
  lemma {:induction false} OperandsIgnoreSign(e1: Expr, e2: Expr, n: nat, env: seq<Frame>)
    requires e1.Expression? && e2.Expression? && e1.rest == e2.rest && n <= |e1.rest|
    ensures OperandsCode(e1, n, env) == OperandsCode(e2, n, env)
    decreases n
  {
    if n > 0 {
      OperandsIgnoreSign(e1, e2, n - 1, env);
      assert PairCode(e1, n - 1, env) == PairCode(e2, n - 1, env);
    }
  }

  /**
   * A leading minus negates the whole expression: the expression is written
   * exactly as without the sign, and one `n:negate` follows its last pair.
   */
  lemma LeadingMinusNegatesWhole(sign: string, first: Expr, rest: seq<Operand>, env: seq<Frame>)
    ensures var c, plain := ExprCode(Expression(sign, first, rest), env), ExprCode(Expression("PLUS", first, rest), env);
      c.err == plain.err &&
      c.tokens == if sign == "MINUS" && c.err.None? then plain.tokens + ["n:negate"] else plain.tokens
  {
    var e, p := Expression(sign, first, rest), Expression("PLUS", first, rest);
    OperandsIgnoreSign(e, p, |rest|, env);
    OperatorChainShape(e, env);
    OperatorChainShape(p, env);
  }

  /** A one-digit number is written as `#` and that digit. */
  lemma DigitLiteral(d: nat, env: seq<Frame>)
    requires d < 10
    ensures ExprCode(Number(d), env) == Emit([['#', DigitChar(d)]])
  {
    assert IntToString(d) == NatToString(d) == [DigitChar(d)];
    assert NumberToken(d) == "#" + [DigitChar(d)] == ['#', DigitChar(d)];
  }

  /**
   * `a + b * c`: the product is folded first, so `+` comes last; with the
   * numbers 2, 3 and 4 this is `#2 #3 #4 * +`.
   */
  lemma SumOfProduct(a: Expr, b: Expr, c: Expr, env: seq<Frame>)
    requires ExprCode(a, env).err.None? && ExprCode(b, env).err.None? && ExprCode(c, env).err.None?
    ensures var e := Expression("PLUS", Term(a, []), [Operand("PLUS", Term(b, [Operand("TIMES", c)]))]);
      ExprCode(e, env) == Code(ExprCode(a, env).tokens + ExprCode(b, env).tokens + ExprCode(c, env).tokens + ["*", "+"], None, 0)
  {
    var ta, tb, tc := ExprCode(a, env).tokens, ExprCode(b, env).tokens, ExprCode(c, env).tokens;
    var first := Term(a, []);
    var product := Term(b, [Operand("TIMES", c)]);
    var e := Expression("PLUS", first, [Operand("PLUS", product)]);
    OperatorChainShape(first, env);
    assert ExprCode(first, env) == Emit(ta + []);
    assert ta + [] == ta;
    assert PairCode(product, 0, env) == Emit(tc + ["*"]);
    assert OperandsCode(product, 1, env) == Emit([] + (tc + ["*"]));
    assert [] + (tc + ["*"]) == tc + ["*"];
    OperatorChainShape(product, env);
    assert ExprCode(product, env) == Emit(tb + (tc + ["*"]));
    assert PairCode(e, 0, env) == Emit(tb + (tc + ["*"]) + ["+"]);
    assert OperandsCode(e, 1, env) == Emit([] + (tb + (tc + ["*"]) + ["+"]));
    OperatorChainShape(e, env);
    assert [] + (tb + (tc + ["*"]) + ["+"]) == tb + (tc + ["*"]) + ["+"];
    assert ta + (tb + (tc + ["*"]) + ["+"]) + [] == ta + (tb + (tc + ["*"]) + ["+"]);
    AppendAssoc(tb, tc, ["*"]);
    AppendAssoc(tb + tc, ["*"], ["+"]);
    assert ["*"] + ["+"] == ["*", "+"];
    AppendAssoc(ta, tb + tc, ["*", "+"]);
    AppendAssoc(ta, tb, tc);
  }

  /**
   * A pair whose tag its handler does not name (anything but `TIMES` and
   * `DIVIDES` in a term, such as `MODULO` or `DIVIDE`; anything but `PLUS` and
   * `MINUS` in an expression) writes its operand and no operator, wherever it
   * stands in the chain.
   */
  lemma UnknownTagWritesNoOperator(e: Expr, i: nat, env: seq<Frame>)
    requires (e.Term? || e.Expression?) && i < |e.rest|
    requires if e.Term? then e.rest[i].op != "TIMES" && e.rest[i].op != "DIVIDES"
             else e.rest[i].op != "PLUS" && e.rest[i].op != "MINUS"
    ensures PairCode(e, i, env) == ExprCode(e.rest[i].arg, env)
  {
    var arg := ExprCode(e.rest[i].arg, env);
    assert arg.tokens + [] == arg.tokens;
  }

  /** `a MODULO b` is written as `a` followed by `b`. */
  lemma ModuloWritesNoOperator(a: Expr, b: Expr, env: seq<Frame>)
    requires ExprCode(a, env).err.None? && ExprCode(b, env).err.None?
    ensures ExprCode(Term(a, [Operand("MODULO", b)]), env) == Code(ExprCode(a, env).tokens + ExprCode(b, env).tokens, None, 0)
  {
    var ta, tb := ExprCode(a, env).tokens, ExprCode(b, env).tokens;
    var t := Term(a, [Operand("MODULO", b)]);
    UnknownTagWritesNoOperator(t, 0, env);
    assert PairCode(t, 0, env) == Emit(tb);
    assert OperandsCode(t, 1, env) == Emit([] + (tb + []));
    assert [] + (tb + []) == tb;
    OperatorChainShape(t, env);
  }

  /** `-a + b` is written as the negation of `a + b`: `a`, `b`, `+`, then `n:negate`. */
  lemma MinusAppliesToSum(a: Expr, b: Expr, env: seq<Frame>)
    requires ExprCode(a, env).err.None? && ExprCode(b, env).err.None?
    ensures var e := Expression("MINUS", Term(a, []), [Operand("PLUS", Term(b, []))]);
      ExprCode(e, env) == Code(ExprCode(a, env).tokens + ExprCode(b, env).tokens + ["+", "n:negate"], None, 0)
  {
    var ta, tb := ExprCode(a, env).tokens, ExprCode(b, env).tokens;
    var first, second := Term(a, []), Term(b, []);
    var e := Expression("MINUS", first, [Operand("PLUS", second)]);
    OperatorChainShape(first, env);
    OperatorChainShape(second, env);
    assert ExprCode(first, env) == Emit(ta + []) && ta + [] == ta;
    assert ExprCode(second, env) == Emit(tb + []) && tb + [] == tb;
    assert PairCode(e, 0, env) == Emit(tb + ["+"]);
    assert OperandsCode(e, 1, env) == Emit([] + (tb + ["+"]));
    OperatorChainShape(e, env);
    assert [] + (tb + ["+"]) == tb + ["+"];
    AppendAssoc(ta, tb, ["+"]);
    AppendAssoc(ta + tb, ["+"], ["n:negate"]);
    assert ["+"] + ["n:negate"] == ["+", "n:negate"];
  }

  /** `2 + 3 * 4` is written `#2 #3 #4 * +`. */
  lemma TwoPlusThreeTimesFour(env: seq<Frame>)
    ensures var e := Expression("PLUS", Term(Number(2), []), [Operand("PLUS", Term(Number(3), [Operand("TIMES", Number(4))]))]);
      ExprCode(e, env).tokens == ["#2", "#3", "#4", "*", "+"]
  {
    DigitLiteral(2, env);
    DigitLiteral(3, env);
    DigitLiteral(4, env);
    assert ['#', DigitChar(2)] == "#2" && ['#', DigitChar(3)] == "#3" && ['#', DigitChar(4)] == "#4";
    SumOfProduct(Number(2), Number(3), Number(4), env);
    LiteralOperands("#2", "#3", "#4", ["*", "+"]);
  }

  lemma LiteralOperands(a: string, b: string, c: string, ops: seq<string>)
    ensures [a] + [b] + [c] + ops == [a, b, c] + ops
  {
  }
}
