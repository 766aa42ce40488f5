/**
 * The whole generator on one small program,
 *
 *     var x;
 *     begin x := 1; if x < 2 then ! x end.
 *
 * which declares one variable, assigns it and prints it under a condition.
 */
module Example {
  import opened Wrappers
  import opened Decimal
  import opened Ast
  import opened Scopes
  import opened Emission
  import opened Handlers

  const X := "PL0:v:x1"

  /** The root scope once `x` is declared. */
  const Env: seq<Frame> := [map["x" := Variable(X)]]

  const Assign := Set("x", Number(1))
  const Test := If(Condition(Name("x"), "LT", Number(2)), Print(Name("x")))
  const Body := Begin([Assign, Test])
  const Source := Program(Block([], ["x"], [], Body))

  lemma VariableLabel()
    ensures VarLabel("x", 1) == X
  {
    assert NatToString(1) == "1";
  }

  lemma Declarations()
    ensures DeclareVariables(["x"], DefineConstants([], State(0, [map[]], []))) == State(1, Env, ["'" + X, "var"])
  {
    VariableLabel();
    assert ["x"][..0] == [];
  }

  lemma Assignment()
    ensures StmtCode(Assign, Env) == Code(["#1", "!" + X], None, 0)
  {
    DigitLiteral(1, Env);
    assert ['#', DigitChar(1)] == "#1";
    assert Lookup(Env, "x") == Some(Variable(X));
  }

  lemma Conditional()
    ensures StmtCode(Test, Env) == Code(["@" + X, "#2", "lt?", "[", "@" + X, "putn", "nl", "]", "if"], None, 1)
  {
    DigitLiteral(2, Env);
    assert ['#', DigitChar(2)] == "#2";
    assert Lookup(Env, "x") == Some(Variable(X));
    var load := "@" + X;
    assert CondCode(Test.cond, Env) == Code([load] + (["#2"] + ["lt?"]), None, 0);
    assert StmtCode(Test.body, Env) == Code([load] + ["putn", "nl"], None, 0);
    IfCode(Test, Env);
    ConditionalTokens(load, "#2", "lt?", "[", load, "putn", "nl", "]", "if");
  }

  lemma ConditionalTokens(a: string, b: string, c: string, d: string, e: string, f: string, g: string, h: string, i: string)
    ensures [a] + ([b] + [c]) + [d] + ([e] + [f, g]) + [h, i] == [a, b, c, d, e, f, g, h, i]
  {
  }

  lemma Statements()
    ensures StmtCode(Body, Env) == Code(["#1", "!" + X, "@" + X, "#2", "lt?", "[", "@" + X, "putn", "nl", "]", "if"], None, 1)
  {
    Assignment();
    Conditional();
    BeginCode(Body, Env);
    assert StmtsCode(Body, 1, Env) == Code([] + ["#1", "!" + X], None, 0);
    assert [] + ["#1", "!" + X] == ["#1", "!" + X];
    StatementTokens("#1", "!" + X, "@" + X, "#2", "lt?", "[", "@" + X, "putn", "nl", "]", "if");
  }

  lemma StatementTokens(a: string, b: string, c: string, d: string, e: string, f: string, g: string, h: string, i: string, j: string, k: string)
    ensures [a, b] + [c, d, e, f, g, h, i, j, k] == [a, b, c, d, e, f, g, h, i, j, k]
  {
  }

  /**
   * `generate` on the example: one storage directive, then `main` with the
   * assignment and the conditional print, two labels drawn (the variable's
   * and the `if`'s), and the scope stack as it was.
   */
  lemma Generated()
    ensures Generation(Source, State(0, [], [])) ==
      Outcome(State(2, [], ["'PL0:v:x1", "var", ":main", "#1", "!PL0:v:x1", "@PL0:v:x1", "#2", "lt?",
                            "[", "@PL0:v:x1", "putn", "nl", "]", "if", ";", "main"]), None)
  {
    Declarations();
    Statements();
    var declared := State(1, Env, ["'" + X, "var"]);
    assert DeclareProcedures([], declared) == Outcome(declared, None);
    SigilTokens();
    GeneratedTokens(["'" + X, "var"], ["#1", "!" + X, "@" + X, "#2", "lt?", "[", "@" + X, "putn", "nl", "]", "if"]);
  }

  lemma SigilTokens()
    ensures "'" + X == "'PL0:v:x1" && "!" + X == "!PL0:v:x1" && "@" + X == "@PL0:v:x1"
  {
  }

  lemma GeneratedTokens(decls: seq<string>, body: seq<string>)
    requires decls == ["'PL0:v:x1", "var"]
    requires body == ["#1", "!PL0:v:x1", "@PL0:v:x1", "#2", "lt?", "[", "@PL0:v:x1", "putn", "nl", "]", "if"]
    ensures decls + [":main"] + body + [";"] + ["main"] ==
      ["'PL0:v:x1", "var", ":main", "#1", "!PL0:v:x1", "@PL0:v:x1", "#2", "lt?",
       "[", "@PL0:v:x1", "putn", "nl", "]", "if", ";", "main"]
  {
  }
}
