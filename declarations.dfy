/**
 * What the declaration handlers promise: where each variable's label and
 * directive go, which names the innermost frame binds afterwards, and what a
 * procedure leaves behind in the enclosing scope and in the output.
 */
module Declarations {
  import opened Wrappers
  import opened Labels
  import opened Ast
  import opened Scopes
  import opened Emission

  /**
   * `accept_variables` writes one `'<label> var` directive per variable, in
   * declaration order; the `i`-th variable's label carries counter value
   * `labelId + i + 1`.
   */
  lemma {:induction false} VariableDirectives(names: seq<string>, st: State, i: nat)
    requires 0 < |st.stack| && i < |names|
    ensures var r := DeclareVariables(names, st);
      r.out[|st.out| + 2 * i] == "'" + VarLabel(names[i], st.labelId + i + 1) &&
      r.out[|st.out| + 2 * i + 1] == "var"
    decreases |names|
  {
    var n := |names| - 1;
    var init := names[..n];
    var prev, r := DeclareVariables(init, st), DeclareVariables(names, st);
    var k := |st.out| + 2 * i;
    assert r.out == prev.out + VarDirective(VarLabel(names[n], prev.labelId + 1));
    if i < n {
      VariableDirectives(init, st, i);
      assert init[i] == names[i];
      assert r.out[k] == prev.out[k] && r.out[k + 1] == prev.out[k + 1];
    } else {
      assert k == |prev.out| && prev.labelId == st.labelId + i;
    }
  }

  /**
   * After `accept_variables`, the last declaration of each name is bound, in
   * the innermost frame, to its own label.
   */
  lemma {:induction false} VariableBindings(names: seq<string>, st: State, i: nat)
    requires 0 < |st.stack| && i < |names| && names[i] !in names[i + 1..]
    ensures var r := DeclareVariables(names, st);
      names[i] in Innermost(r.stack) &&
      Innermost(r.stack)[names[i]] == Variable(VarLabel(names[i], st.labelId + i + 1))
    decreases |names|
  {
    var n := |names| - 1;
    var init := names[..n];
    var prev, r := DeclareVariables(init, st), DeclareVariables(names, st);
    assert r.stack == Bind(prev.stack, names[n], Variable(VarLabel(names[n], prev.labelId + 1)));
    if i < n {
      assert names[n] in names[i + 1..];
      assert init[i] == names[i] && init[i + 1..] <= names[i + 1..];
      VariableBindings(init, st, i);
    }
  }

  /** `accept_variables` leaves every name it does not declare resolving as before. */
  lemma {:induction false} VariablesHideOnlyThemselves(names: seq<string>, st: State, x: string)
    requires 0 < |st.stack| && x !in names
    ensures Lookup(DeclareVariables(names, st).stack, x) == Lookup(st.stack, x)
    decreases |names|
  {
    if names != [] {
      var n := |names| - 1;
      var init := names[..n];
      assert names == init + [names[n]];
      VariablesHideOnlyThemselves(init, st, x);
      var prev := DeclareVariables(init, st);
      LookupAfterBind(prev.stack, names[n], Variable(VarLabel(names[n], prev.labelId + 1)), x);
    }
  }

  /**
   * As long as no variable name ends in a digit, the variables of one group
   * get pairwise different labels.
   */
  lemma VariableLabelsDistinct(names: seq<string>, counter: nat, i: nat, j: nat)
    requires i < j < |names|
    requires !EndsInDigit("v:" + names[i]) && !EndsInDigit("v:" + names[j])
    ensures VarLabel(names[i], counter + i + 1) != VarLabel(names[j], counter + j + 1)
  {
    if VarLabel(names[i], counter + i + 1) == VarLabel(names[j], counter + j + 1) {
      LabelInjective("v:" + names[i], counter + i + 1, "v:" + names[j], counter + j + 1);
    }
  }

  /**
   * After `accept_constants`, the last definition of each name is bound, in the
   * innermost frame, to its value; every other name resolves as before.
   */
  lemma {:induction false} ConstantBindings(defs: seq<ConstDecl>, st: State)
    requires 0 < |st.stack|
    ensures var r := DefineConstants(defs, st);
      forall i :: 0 <= i < |defs| && (forall j :: i < j < |defs| ==> defs[j].name != defs[i].name) ==>
        defs[i].name in Innermost(r.stack) && Innermost(r.stack)[defs[i].name] == Constant(defs[i].value)
    ensures var r := DefineConstants(defs, st);
      forall x :: (forall d :: d in defs ==> d.name != x) ==> Lookup(r.stack, x) == Lookup(st.stack, x)
    decreases |defs|
  {
    if defs != [] {
      var n := |defs| - 1;
      var init := defs[..n];
      ConstantBindings(init, st);
      var prev, r := DefineConstants(init, st), DefineConstants(defs, st);
      var d := defs[n];
      assert r.stack == Bind(prev.stack, d.name, Constant(d.value));
      forall i | 0 <= i < |defs| && (forall j :: i < j < |defs| ==> defs[j].name != defs[i].name)
        ensures defs[i].name in Innermost(r.stack)
        ensures Innermost(r.stack)[defs[i].name] == Constant(defs[i].value)
      {
        if i < n {
          assert defs[n].name != defs[i].name;
          assert init[i] == defs[i];
          assert forall j :: i < j < |init| ==> init[j].name != init[i].name;
        }
      }
      forall x | forall d :: d in defs ==> d.name != x
        ensures Lookup(r.stack, x) == Lookup(st.stack, x)
      {
        assert defs[n] in defs;
        assert forall d :: d in init ==> d in defs;
        LookupAfterBind(prev.stack, d.name, Constant(d.value), x);
      }
    }
  }

  /**
   * A procedure that runs to the end leaves the enclosing scope as it found it
   * except for its own name, bound to its entry label; its output starts with
   * its banner, has `:<entry>` right after the variables' directives and
   * ends with `;`.
   */
  lemma ProcedureEffect(p: ProcDecl, st: State)
    requires 0 < |st.stack|
    ensures var o, entry := DeclareProcedure(p, st), ProcLabel(p.name, st.labelId + 1);
      |st.out| < |o.state.out| && o.state.out[|st.out|] == Banner(p.name) &&
      (o.err.None? ==>
        o.state.stack == Bind(st.stack, p.name, Procedure(entry)) &&
        |st.out| + 2 + 2 * |p.block.vars| < |o.state.out| &&
        o.state.out[|st.out| + 1 + 2 * |p.block.vars|] == ":" + entry &&
        o.state.out[|o.state.out| - 1] == ";")
  {
    var entry := ProcLabel(p.name, st.labelId + 1);
    var entered := Entered(p, st);
    var consts := DefineConstants(p.block.consts, entered);
    var declared := DeclareVariables(p.block.vars, consts);
    var body := StmtCode(p.block.body, declared.stack);
    assert entered.out <= declared.out;
    assert declared.out[|st.out|] == entered.out[|st.out|];
    var o := DeclareProcedure(p, st);
    assert o.state.out[..|declared.out|] == declared.out;
    if body.err.None? {
      var n := |entered.stack| - 1;
      assert Outer(declared.stack) == Outer(entered.stack) == entered.stack[..n];
      assert entered.stack[..n] == Bind(st.stack, p.name, Procedure(entry));
      assert o.state.out[|declared.out|] == ":" + entry;
    }
  }

  /**
   * The program root: once its own declarations and procedures are written,
   * `:main` follows them, then the main body compiled in the scope the
   * declarations built; a body that runs to the end is closed by `;` and
   * the call `main`, and a body that fails leaves its partial code as the
   * last output, with its error.
   */
  lemma ProgramEffect(prog: Program, st: State)
    requires 0 < |st.stack|
    ensures var b := prog.block;
      var procs := DeclareProcedures(b.procs, DeclareVariables(b.vars, DefineConstants(b.consts, st)));
      var body, o := StmtCode(b.body, procs.state.stack), CompileProgram(prog, st);
      (procs.err.Some? ==> o == procs) &&
      (procs.err.None? ==>
        |procs.state.out| < |o.state.out| && o.state.out[|procs.state.out|] == ":main" &&
        o.err == body.err &&
        o.state.labelId == procs.state.labelId + body.used &&
        o.state.stack == procs.state.stack &&
        o.state.out == procs.state.out + [":main"] + body.tokens + (if o.err.None? then [";", "main"] else []))
  {
    var b := prog.block;
    var procs := DeclareProcedures(b.procs, DeclareVariables(b.vars, DefineConstants(b.consts, st)));
    if procs.err.None? {
      MainTail(procs.state, StmtCode(b.body, procs.state.stack));
    }
  }

  /** The main block's output, token by token. */
  lemma MainTail(procs: State, body: Code)
    ensures var o := MainBlock(procs, body);
      |procs.out| < |o.state.out| && o.state.out[|procs.out|] == ":main" &&
      o.state.out == procs.out + [":main"] + body.tokens + (if o.err.None? then [";", "main"] else [])
  {
    var ran := procs.out + [":main"] + body.tokens;
    assert ran[|procs.out|] == ":main";
    if body.err.None? {
      assert ran + [";"] + ["main"] == ran + [";", "main"];
    } else {
      assert ran == ran + [];
    }
  }

  /**
   * A procedure's body sees the procedure itself, so it may call itself,
   * unless one of its own constants or variables shadows the name.
   */
  lemma ProcedureSeesItself(p: ProcDecl, st: State)
    requires 0 < |st.stack|
    requires p.name !in p.block.vars && forall d :: d in p.block.consts ==> d.name != p.name
    ensures var env := DeclareVariables(p.block.vars, DefineConstants(p.block.consts, Entered(p, st))).stack;
      Lookup(env, p.name) == Some(Procedure(ProcLabel(p.name, st.labelId + 1)))
  {
    var entered := Entered(p, st);
    var bound := Bind(st.stack, p.name, Procedure(ProcLabel(p.name, st.labelId + 1)));
    LookupThroughEmptyFrame(bound, p.name);
    LookupAfterBind(st.stack, p.name, Procedure(ProcLabel(p.name, st.labelId + 1)), p.name);
    ConstantBindings(p.block.consts, entered);
    VariablesHideOnlyThemselves(p.block.vars, DefineConstants(p.block.consts, entered), p.name);
  }

  /** A procedure's own procedure declarations are never visited: they change nothing it emits. */
  lemma NestedProceduresIgnored(p: ProcDecl, st: State, inner: seq<ProcDecl>)
    requires 0 < |st.stack|
    ensures DeclareProcedure(p, st) == DeclareProcedure(ProcDecl(p.name, p.block.(procs := inner)), st)
  {
  }
}
