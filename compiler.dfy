/**
 * The code-generation pass of the PL/0 to Retro 12 translator: class
 * `Compiler`, a visitor that walks the syntax tree once, keeps a label counter
 * and a stack of lexical scopes, and writes Retro source as it goes. The
 * visitor's string-keyed dispatch becomes `VisitExpr` and `VisitStmt`; each
 * `accept_*` handler is a method; `print` appends tokens to `out`; a
 * `NameError` (or a failing lookup) is returned as an error that every caller
 * passes on at once, leaving state and output as they were at that point.
 * Each method is proved against the specification functions of `Emission`.
 */
module Pl0Retro12 {
  import opened Wrappers
  import opened Decimal
  import opened Labels
  import opened Ast
  import opened Scopes
  import opened Emission

  class Compiler {
    var labelId: nat
    var stack: seq<Frame>
    var out: seq<string>

    constructor ()
      ensures labelId == 0 && stack == [] && out == []
    {
      labelId := 0;
      stack := [];
      out := [];
    }

    function Snapshot(): State
      reads this
    {
      State(labelId, stack, out)
    }

    /** One `print` call: its whitespace-separated tokens are appended to the output. */
    method Output(tokens: seq<string>)
      modifies this`out
      ensures out == old(out) + tokens
    {
      out := out + tokens;
    }

    /** `intermediate_label`: advance the counter, then name the label after its new value. */
    method IntermediateLabel(hint: string) returns (name: string)
      modifies this`labelId
      ensures labelId == old(labelId) + 1
      ensures name == Label(hint, labelId)
    {
      labelId := labelId + 1;
      name := Namespace + hint + NatToString(labelId);
    }

    method Push()
      modifies this`stack
      ensures stack == old(stack) + [map[]]
    {
      stack := stack + [map[]];
    }

    method Pop() returns (frame: Frame)
      requires 0 < |stack|
      modifies this`stack
      ensures old(stack) == stack + [frame]
    {
      frame := stack[|stack| - 1];
      stack := stack[..|stack| - 1];
    }

    /** `find`: search the frames from the innermost outwards. */
    method Find(name: string) returns (sym: Option<Symbol>)
      ensures sym == Lookup(stack, name)
    {
      var i := |stack|;
      assert stack[..i] == stack;
      while 0 < i
        invariant 0 <= i <= |stack|
        invariant Lookup(stack, name) == Lookup(stack[..i], name)
      {
        if name in stack[i - 1] {
          sym := Some(stack[i - 1][name]);
          return;
        }
        assert stack[..i][..i - 1] == stack[..i - 1];
        i := i - 1;
      }
      sym := None;
    }

    /** `update`: bind a variable in the innermost frame. */
    method Update(name: string, storage: string)
      requires 0 < |stack|
      modifies this`stack
      ensures stack == Bind(old(stack), name, Variable(storage))
    {
      stack := Bind(stack, name, Variable(storage));
    }

    /** `define`: bind a constant in the innermost frame. */
    method Define(name: string, value: int)
      requires 0 < |stack|
      modifies this`stack
      ensures stack == Bind(old(stack), name, Constant(value))
    {
      stack := Bind(stack, name, Constant(value));
    }

    /** `declare`: bind a procedure in the innermost frame. */
    method Declare(name: string, entry: string)
      requires 0 < |stack|
      modifies this`stack
      ensures stack == Bind(old(stack), name, Procedure(entry))
    {
      stack := Bind(stack, name, Procedure(entry));
    }

    /** `generate`: compile the program in a fresh frame and hand back that frame. */
    method Generate(prog: Program) returns (globals: Frame, err: Option<Error>)
      modifies this
      ensures Outcome(Snapshot(), err) == Generation(prog, old(Snapshot()))
      ensures err.None? ==> globals == Globals(prog, old(Snapshot()))
    {
      Push();
      err := AcceptProgram(prog);
      if err.Some? {
        globals := map[];
        return;
      }
      globals := Pop();
    }

    method AcceptVariables(names: seq<string>)
      requires 0 < |stack|
      modifies this
      ensures Snapshot() == DeclareVariables(names, old(Snapshot()))
    {
      var i := 0;
      while i < |names|
        invariant i <= |names|
        invariant Snapshot() == DeclareVariables(names[..i], old(Snapshot()))
      {
        var storage := IntermediateLabel("v:" + names[i]);
        Update(names[i], storage);
        Output(VarDirective(storage));
        assert names[..i + 1][..i] == names[..i];
        i := i + 1;
      }
      assert names[..i] == names;
    }

    method AcceptConstants(defs: seq<ConstDecl>)
      requires 0 < |stack|
      modifies this
      ensures Snapshot() == DefineConstants(defs, old(Snapshot()))
    {
      var i := 0;
      while i < |defs|
        invariant i <= |defs|
        invariant Snapshot() == DefineConstants(defs[..i], old(Snapshot()))
      {
        Define(defs[i].name, defs[i].value);
        assert defs[..i + 1][..i] == defs[..i];
        i := i + 1;
      }
      assert defs[..i] == defs;
    }

    method AcceptProcedures(procs: seq<ProcDecl>) returns (err: Option<Error>)
      requires 0 < |stack|
      modifies this
      ensures Outcome(Snapshot(), err) == DeclareProcedures(procs, old(Snapshot()))
    {
      err := None;
      var i := 0;
      while i < |procs|
        invariant i <= |procs| && err.None? && 0 < |stack|
        invariant DeclareProceduresFrom(procs, i, Snapshot()) == DeclareProcedures(procs, old(Snapshot()))
      {
        err := AcceptProcedure(procs[i]);
        if err.Some? {
          return;
        }
        i := i + 1;
      }
    }

    /** The body of `accept_procedures`' loop, for one procedure. */
    method AcceptProcedure(p: ProcDecl) returns (err: Option<Error>)
      requires 0 < |stack|
      modifies this
      ensures Outcome(Snapshot(), err) == DeclareProcedure(p, old(Snapshot()))
    {
      ghost var st := Snapshot();
      var entry := IntermediateLabel("p:" + p.name);
      Declare(p.name, entry);
      Push();
      Output([Banner(p.name)]);
      ghost var entered := Snapshot();
      AcceptConstants(p.block.consts);
      AcceptVariables(p.block.vars);
      ghost var declared := Snapshot();
      Output([":" + entry]);
      err := VisitStmt(p.block.body);
      ghost var ran := Snapshot();
      DeclareProcedureSteps(p, st, entry, entered, declared, ran, err);
      if err.Some? {
        return;
      }
      Output([";"]);
      var frame := Pop();
    }

    method AcceptProgram(prog: Program) returns (err: Option<Error>)
      requires 0 < |stack|
      modifies this
      ensures Outcome(Snapshot(), err) == CompileProgram(prog, old(Snapshot()))
    {
      var b := prog.block;
      AcceptConstants(b.consts);
      AcceptVariables(b.vars);
      err := AcceptProcedures(b.procs);
      if err.Some? {
        return;
      }
      Output([":main"]);
      err := VisitStmt(b.body);
      if err.Some? {
        return;
      }
      Output([";"]);
      Output(["main"]);
    }

    /** The visitor's dispatch on statement nodes. */
    method VisitStmt(s: Stmt) returns (err: Option<Error>)
      modifies this`out, this`labelId
      ensures out == old(out) + StmtCode(s, stack).tokens
      ensures err == StmtCode(s, stack).err
      ensures labelId == old(labelId) + StmtCode(s, stack).used
      decreases s, 3
    {
      match s
      case While(_, _) => err := AcceptWhile(s);
      case If(_, _) => err := AcceptIf(s);
      case Set(_, _) => err := AcceptSet(s);
      case Call(_) => err := AcceptCall(s);
      case Print(_) => err := AcceptPrint(s);
      case Begin(_) => err := AcceptBegin(s);
    }

    /** `accept_while`: two labels are drawn and never written; the body precedes the condition. */
    method AcceptWhile(s: Stmt) returns (err: Option<Error>)
      requires s.While?
      modifies this`out, this`labelId
      ensures out == old(out) + StmtCode(s, stack).tokens
      ensures err == StmtCode(s, stack).err
      ensures labelId == old(labelId) + StmtCode(s, stack).used
      decreases s, 1
    {
      WhileCode(s, stack);
      ghost var body, cond := StmtCode(s.body, stack), CondCode(s.cond, stack);
      var top := IntermediateLabel("while_start");
      var bottom := IntermediateLabel("while_end");
      Output(["["]);
      err := VisitStmt(s.body);
      AppendAssoc(old(out), ["["], body.tokens);
      if err.Some? {
        return;
      }
      err := AcceptCondition(s.cond);
      AppendAssoc(old(out), ["["] + body.tokens, cond.tokens);
      if err.Some? {
        return;
      }
      Output(["]", "while"]);
      AppendAssoc(old(out), ["["] + body.tokens + cond.tokens, ["]", "while"]);
    }

    /** `accept_if`: one label is drawn and never written. */
    method AcceptIf(s: Stmt) returns (err: Option<Error>)
      requires s.If?
      modifies this`out, this`labelId
      ensures out == old(out) + StmtCode(s, stack).tokens
      ensures err == StmtCode(s, stack).err
      ensures labelId == old(labelId) + StmtCode(s, stack).used
      decreases s, 1
    {
      IfCode(s, stack);
      ghost var cond, body := CondCode(s.cond, stack), StmtCode(s.body, stack);
      var falseLabel := IntermediateLabel("if_false");
      err := AcceptCondition(s.cond);
      if err.Some? {
        return;
      }
      Output(["["]);
      err := VisitStmt(s.body);
      AppendAssoc(old(out), cond.tokens, ["["]);
      AppendAssoc(old(out), cond.tokens + ["["], body.tokens);
      if err.Some? {
        return;
      }
      Output(["]", "if"]);
      AppendAssoc(old(out), cond.tokens + ["["] + body.tokens, ["]", "if"]);
    }

    /** `accept_set`: the value is written before the target is looked up and checked. */
    method AcceptSet(s: Stmt) returns (err: Option<Error>)
      requires s.Set?
      modifies this`out
      ensures out == old(out) + StmtCode(s, stack).tokens
      ensures err == StmtCode(s, stack).err
      ensures StmtCode(s, stack).used == 0
    {
      ghost var value := ExprCode(s.value, stack);
      err := VisitExpr(s.value);
      if err.Some? {
        return;
      }
      var sym := Find(s.target);
      match sym
      case None => err := Some(UnresolvedIdentifier(s.target));
      case Some(Variable(storage)) =>
        Output(["!" + storage]);
        AppendAssoc(old(out), value.tokens, ["!" + storage]);
      case Some(found) => err := Some(InvalidAssignment(s.target, found));
    }

    method AcceptCall(s: Stmt) returns (err: Option<Error>)
      requires s.Call?
      modifies this`out
      ensures out == old(out) + StmtCode(s, stack).tokens
      ensures err == StmtCode(s, stack).err
      ensures StmtCode(s, stack).used == 0
    {
      var sym := Find(s.callee);
      err := None;
      match sym
      case None => err := Some(UnresolvedIdentifier(s.callee));
      case Some(Procedure(entry)) => Output([entry]);
      case Some(found) => err := Some(InvalidCall(s.callee, found));
    }

    method AcceptPrint(s: Stmt) returns (err: Option<Error>)
      requires s.Print?
      modifies this`out
      ensures out == old(out) + StmtCode(s, stack).tokens
      ensures err == StmtCode(s, stack).err
      ensures StmtCode(s, stack).used == 0
    {
      ghost var value := ExprCode(s.arg, stack);
      err := VisitExpr(s.arg);
      if err.Some? {
        return;
      }
      Output(["putn", "nl"]);
      AppendAssoc(old(out), value.tokens, ["putn", "nl"]);
    }

    /** A compound statement: its statements in order, stopping at the first error. */
    method AcceptBegin(s: Stmt) returns (err: Option<Error>)
      requires s.Begin?
      modifies this`out, this`labelId
      ensures out == old(out) + StmtCode(s, stack).tokens
      ensures err == StmtCode(s, stack).err
      ensures labelId == old(labelId) + StmtCode(s, stack).used
      decreases s, 2
    {
      BeginCode(s, stack);
      err := AcceptStatements(s);
    }

    /** The loop over a compound statement's statements. */
    method AcceptStatements(s: Stmt) returns (err: Option<Error>)
      requires s.Begin?
      modifies this`out, this`labelId
      ensures out == old(out) + StmtsCode(s, |s.stmts|, stack).tokens
      ensures err == StmtsCode(s, |s.stmts|, stack).err
      ensures labelId == old(labelId) + StmtsCode(s, |s.stmts|, stack).used
      decreases s, 1
    {
      ghost var start, counter, env := out, labelId, stack;
      err := None;
      var i := 0;
      while i < |s.stmts| && err.None?
        invariant i <= |s.stmts| && stack == env
        invariant out == start + StmtsCode(s, i, env).tokens
        invariant labelId == counter + StmtsCode(s, i, env).used
        invariant err == StmtsCode(s, i, env).err
      {
        ghost var done := StmtsCode(s, i, env);
        err := AcceptStatement(s, i);
        AppendAssoc(start, done.tokens, StmtAtCode(s, i, env).tokens);
        i := i + 1;
      }
      if err.Some? {
        StmtsStopAtError(s, i, |s.stmts|, env);
      }
    }

    /** One statement of a compound statement. */
    method AcceptStatement(s: Stmt, i: nat) returns (err: Option<Error>)
      requires s.Begin? && i < |s.stmts|
      modifies this`out, this`labelId
      ensures out == old(out) + StmtAtCode(s, i, stack).tokens
      ensures err == StmtAtCode(s, i, stack).err
      ensures labelId == old(labelId) + StmtAtCode(s, i, stack).used
      decreases s, 0
    {
      assert s.stmts[i] in s.stmts;
      err := VisitStmt(s.stmts[i]);
    }

    /** `accept_condition`: both sides, then the `rel_ops` word for the operator. */
    method AcceptCondition(c: Condition) returns (err: Option<Error>)
      modifies this`out
      ensures out == old(out) + CondCode(c, stack).tokens
      ensures err == CondCode(c, stack).err
    {
      CondShape(c, stack);
      ghost var lhs, rhs := ExprCode(c.lhs, stack), ExprCode(c.rhs, stack);
      err := VisitExpr(c.lhs);
      if err.Some? {
        return;
      }
      err := VisitExpr(c.rhs);
      AppendAssoc(old(out), lhs.tokens, rhs.tokens);
      if err.Some? {
        return;
      }
      if c.op in RelOps {
        Output([RelOps[c.op]]);
        AppendAssoc(old(out), lhs.tokens + rhs.tokens, [RelOps[c.op]]);
      } else {
        err := Some(UnknownRelation(c.op));
      }
    }

    /** The visitor's dispatch on expression nodes. */
    method VisitExpr(e: Expr) returns (err: Option<Error>)
      modifies this`out
      ensures out == old(out) + ExprCode(e, stack).tokens
      ensures err == ExprCode(e, stack).err
      decreases e, 2
    {
      match e
      case Number(n) => AcceptNumber(n); err := None;
      case Name(x) => err := AcceptName(x);
      case Term(_, _) => err := AcceptTerm(e);
      case Expression(_, _, _) => err := AcceptExpression(e);
    }

    /** `accept_term`: the first factor, then each factor followed by `*` or `/`. */
    method AcceptTerm(e: Expr) returns (err: Option<Error>)
      requires e.Term?
      modifies this`out
      ensures out == old(out) + ExprCode(e, stack).tokens
      ensures err == ExprCode(e, stack).err
      decreases e, 1
    {
      OperatorChainShape(e, stack);
      err := VisitExpr(e.first);
      if err.Some? {
        return;
      }
      err := AcceptOperands(e);
      AppendAssoc(old(out), ExprCode(e.first, stack).tokens, OperandsCode(e, |e.rest|, stack).tokens);
    }

    /**
     * `accept_expression`: the first term, then each term followed by `+` or
     * `-`, and `n:negate` last when the sign is a minus.
     */
    method AcceptExpression(e: Expr) returns (err: Option<Error>)
      requires e.Expression?
      modifies this`out
      ensures out == old(out) + ExprCode(e, stack).tokens
      ensures err == ExprCode(e, stack).err
      decreases e, 1
    {
      OperatorChainShape(e, stack);
      ghost var first := ExprCode(e.first, stack).tokens;
      ghost var pairs := OperandsCode(e, |e.rest|, stack).tokens;
      err := VisitExpr(e.first);
      if err.Some? {
        return;
      }
      err := AcceptOperands(e);
      AppendAssoc(old(out), first, pairs);
      if err.Some? {
        return;
      }
      if e.sign == "MINUS" {
        Output(["n:negate"]);
      }
      AppendAssoc(old(out), first + pairs, NegateToken(e.sign));
    }

    /**
     * The loop shared by `accept_term` and `accept_expression`: each
     * `(tag, operand)` pair's operand, then the operator its tag names.
     */
    method AcceptOperands(e: Expr) returns (err: Option<Error>)
      requires e.Term? || e.Expression?
      modifies this`out
      ensures out == old(out) + OperandsCode(e, |e.rest|, stack).tokens
      ensures err == OperandsCode(e, |e.rest|, stack).err
      decreases e, 0
    {
      ghost var start, env := out, stack;
      err := None;
      var i := 0;
      while i < |e.rest|
        invariant i <= |e.rest| && err.None? && stack == env
        invariant out == start + OperandsCode(e, i, env).tokens
        invariant OperandsCode(e, i, env).err.None?
      {
        ghost var done := OperandsCode(e, i, env);
        err := AcceptOperand(e, i);
        AppendAssoc(start, done.tokens, PairCode(e, i, env).tokens);
        if err.Some? {
          OperandsStopAtError(e, i + 1, |e.rest|, env);
          return;
        }
        i := i + 1;
      }
    }

    /** One pass of that loop: the operand, then its operator token. */
    method AcceptOperand(e: Expr, i: nat) returns (err: Option<Error>)
      requires (e.Term? || e.Expression?) && i < |e.rest|
      modifies this`out
      ensures out == old(out) + PairCode(e, i, stack).tokens
      ensures err == PairCode(e, i, stack).err
      decreases e, 0, i
    {
      var pair := e.rest[i];
      assert pair in e.rest;
      err := VisitExpr(pair.arg);
      if err.Some? {
        return;
      }
      Output(OperatorToken(e, pair.op));
    }

    method AcceptNumber(n: int)
      modifies this`out
      ensures out == old(out) + [NumberToken(n)]
    {
      Output([NumberToken(n)]);
    }

    /** `accept_name`: a variable is fetched with `@`, a constant is pushed as a literal between comments. */
    method AcceptName(x: string) returns (err: Option<Error>)
      modifies this`out
      ensures out == old(out) + NameCode(x, stack).tokens
      ensures err == NameCode(x, stack).err
    {
      var sym := Find(x);
      err := None;
      match sym
      case None => err := Some(UnresolvedIdentifier(x));
      case Some(Variable(storage)) => Output(["@" + storage]);
      case Some(Constant(v)) => Output(["(a)", NumberToken(v), "(b)"]);
      case Some(found) => err := Some(InvalidValue(x, found));
    }
  }
}
