/**
 * What each handler of the code generator writes, as functions of the syntax
 * tree and the generator's state. Statements and expressions only read the
 * scope stack, so they are described by the tokens they emit, the error they
 * stop with and the number of labels they draw; declarations change the
 * counter, the scope stack and the output, so they are state transformers.
 * An error stops the whole pass at once, so everything emitted before it stays
 * in the output and nothing after it is run.
 */
module Emission {
  import opened Wrappers
  import opened Decimal
  import opened Labels
  import opened Ast
  import opened Scopes

  /** The pass's `NameError`s, the failing `find` of an undeclared name and the `KeyError` of `rel_ops`. */
  datatype Error =
    | UnresolvedIdentifier(name: string)
    | InvalidAssignment(name: string, found: Symbol)
    | InvalidCall(name: string, found: Symbol)
    | InvalidValue(name: string, found: Symbol)
    | UnknownRelation(op: string)

  /** The effect of a handler that only reads the scope stack. */
  datatype Code = Code(tokens: seq<string>, err: Option<Error>, used: nat)

  function Emit(tokens: seq<string>): Code {
    Code(tokens, None, 0)
  }

  function Fail(e: Error): Code {
    Code([], Some(e), 0)
  }

  /** Appending to the output in steps is appending the steps at once. */
  lemma AppendAssoc(a: seq<string>, b: seq<string>, c: seq<string>)
    ensures a + b + c == a + (b + c)
  {
  }

  /** `a`, followed by `b` unless `a` stopped with an error. */
  function Then(a: Code, b: Code): Code {
    if a.err.Some? then a else Code(a.tokens + b.tokens, b.err, a.used + b.used)
  }

  /** The relational operators and the Retro words that test them. */
  const RelOps: map<string, string> :=
    map["LT" := "lt?", "LTE" := "lteq?", "GT" := "gt?", "GTE" := "gteq?", "E" := "eq?", "NE" := "-eq?"]

  function NumberToken(n: int): string {
    "#" + IntToString(n)
  }

  /** A name used as a value: a variable is fetched, a constant's value is pushed in place. */
  function NameCode(x: string, env: seq<Frame>): Code {
    match Lookup(env, x)
    case None => Fail(UnresolvedIdentifier(x))
    case Some(Variable(storage)) => Emit(["@" + storage])
    case Some(Constant(v)) => Emit(["(a)", NumberToken(v), "(b)"])
    case Some(sym) => Fail(InvalidValue(x, sym))
  }

  /** The operator token a term writes after an operand: only `TIMES` and `DIVIDES` write one. */
  function MulOpToken(op: string): seq<string> {
    if op == "TIMES" then ["*"] else if op == "DIVIDES" then ["/"] else []
  }

  /** The operator token an expression writes after an operand: only `PLUS` and `MINUS` write one. */
  function AddOpToken(op: string): seq<string> {
    if op == "PLUS" then ["+"] else if op == "MINUS" then ["-"] else []
  }

  function OperatorToken(e: Expr, op: string): seq<string>
    requires e.Term? || e.Expression?
  {
    if e.Term? then MulOpToken(op) else AddOpToken(op)
  }

  function NegateToken(sign: string): seq<string> {
    if sign == "MINUS" then ["n:negate"] else []
  }

  /** Expressions draw no labels. */
  function ExprCode(e: Expr, env: seq<Frame>): (c: Code)
    ensures c.used == 0
    decreases e, 1
  {
    match e
    case Number(n) => Emit([NumberToken(n)])
    case Name(x) => NameCode(x, env)
    case Term(first, rest) => Then(ExprCode(first, env), OperandsCode(e, |rest|, env))
    case Expression(sign, first, rest) =>
      Then(Then(ExprCode(first, env), OperandsCode(e, |rest|, env)), Emit(NegateToken(sign)))
  }

  /** The first `n` `(tag, operand)` pairs of a term or an expression: each operand, then its operator. */
  function OperandsCode(e: Expr, n: nat, env: seq<Frame>): (c: Code)
    requires (e.Term? || e.Expression?) && n <= |e.rest|
    ensures c.used == 0
    decreases e, 0, n
  {
    if n == 0 then Emit([]) else Then(OperandsCode(e, n - 1, env), PairCode(e, n - 1, env))
  }

  /** The `i`-th `(tag, operand)` pair: its operand, then its operator. */
  function PairCode(e: Expr, i: nat, env: seq<Frame>): (c: Code)
    requires (e.Term? || e.Expression?) && i < |e.rest|
    ensures c.used == 0
    decreases e, 0, i
  {
    var pair := e.rest[i];
    assert pair in e.rest;
    Then(ExprCode(pair.arg, env), Emit(OperatorToken(e, pair.op)))
  }

  function RelationCode(op: string): Code {
    if op in RelOps then Emit([RelOps[op]]) else Fail(UnknownRelation(op))
  }

  function CondCode(c: Condition, env: seq<Frame>): (r: Code)
    ensures r.used == 0
  {
    Then(ExprCode(c.lhs, env), Then(ExprCode(c.rhs, env), RelationCode(c.op)))
  }

  /** The store of an assignment: only a variable may be assigned. */
  function StoreCode(x: string, env: seq<Frame>): Code {
    match Lookup(env, x)
    case None => Fail(UnresolvedIdentifier(x))
    case Some(Variable(storage)) => Emit(["!" + storage])
    case Some(sym) => Fail(InvalidAssignment(x, sym))
  }

  /** A call: only a procedure may be called, by writing its entry label. */
  function CallCode(x: string, env: seq<Frame>): Code {
    match Lookup(env, x)
    case None => Fail(UnresolvedIdentifier(x))
    case Some(Procedure(entry)) => Emit([entry])
    case Some(sym) => Fail(InvalidCall(x, sym))
  }

  /** The labels a statement draws when it runs to the end: two per `while`, one per `if`. */
  function ControlLabels(s: Stmt): nat
    decreases s, 1
  {
    match s
    case While(_, body) => 2 + ControlLabels(body)
    case If(_, body) => 1 + ControlLabels(body)
    case Begin(ss) => ControlLabelsOf(s, |ss|)
    case _ => 0
  }

  function ControlLabelsOf(s: Stmt, n: nat): nat
    requires s.Begin? && n <= |s.stmts|
    decreases s, 0, n
  {
    if n == 0 then 0
    else
      assert s.stmts[n - 1] in s.stmts;
      ControlLabelsOf(s, n - 1) + ControlLabels(s.stmts[n - 1])
  }

  /** A statement draws at most its control-flow labels, all of them when it does not stop. */
  function StmtCode(s: Stmt, env: seq<Frame>): (c: Code)
    ensures c.used <= ControlLabels(s)
    ensures c.err.None? ==> c.used == ControlLabels(s)
    decreases s, 1
  {
    match s
    case While(cond, body) =>
      Then(Code(["["], None, 2), Then(StmtCode(body, env), Then(CondCode(cond, env), Emit(["]", "while"]))))
    case If(cond, body) =>
      Then(Code([], None, 1), Then(CondCode(cond, env), Then(Emit(["["]), Then(StmtCode(body, env), Emit(["]", "if"])))))
    case Set(x, e) => Then(ExprCode(e, env), StoreCode(x, env))
    case Call(x) => CallCode(x, env)
    case Print(e) => Then(ExprCode(e, env), Emit(["putn", "nl"]))
    case Begin(ss) => StmtsCode(s, |ss|, env)
  }

  /** The first `n` statements of a compound statement, in order. */
  function StmtsCode(s: Stmt, n: nat, env: seq<Frame>): (c: Code)
    requires s.Begin? && n <= |s.stmts|
    ensures c.used <= ControlLabelsOf(s, n)
    ensures c.err.None? ==> c.used == ControlLabelsOf(s, n)
    decreases s, 0, n
  {
    if n == 0 then Emit([]) else Then(StmtsCode(s, n - 1, env), StmtAtCode(s, n - 1, env))
  }

  /** The `i`-th statement of a compound statement. */
  function StmtAtCode(s: Stmt, i: nat, env: seq<Frame>): (c: Code)
    requires s.Begin? && i < |s.stmts|
    ensures c.used <= ControlLabels(s.stmts[i])
    ensures c.err.None? ==> c.used == ControlLabels(s.stmts[i])
    decreases s, 0, i
  {
    assert s.stmts[i] in s.stmts;
    StmtCode(s.stmts[i], env)
  }

  /** The generator's whole state: the label counter, the scope stack and the output so far. */
  datatype State = State(labelId: nat, stack: seq<Frame>, out: seq<string>)

  datatype Outcome = Outcome(state: State, err: Option<Error>)

  /** Everything but the innermost frame. */
  function Outer(stack: seq<Frame>): seq<Frame>
    requires 0 < |stack|
  {
    stack[..|stack| - 1]
  }

  function Innermost(stack: seq<Frame>): Frame
    requires 0 < |stack|
  {
    stack[|stack| - 1]
  }

  /** `accept_constants`: binds each constant in the innermost frame; no output, no label. */
  function DefineConstants(defs: seq<ConstDecl>, st: State): (r: State)
    requires 0 < |st.stack|
    ensures r.labelId == st.labelId && r.out == st.out
    ensures |r.stack| == |st.stack| && Outer(r.stack) == Outer(st.stack)
    decreases |defs|
  {
    if defs == [] then st
    else
      var prev := DefineConstants(defs[..|defs| - 1], st);
      var d := defs[|defs| - 1];
      prev.(stack := Bind(prev.stack, d.name, Constant(d.value)))
  }

  function VarLabel(x: string, counter: nat): string {
    Label("v:" + x, counter)
  }

  /** The storage directive `'<label> var`. */
  function VarDirective(storage: string): seq<string> {
    ["'" + storage, "var"]
  }

  /**
   * `accept_variables`: each variable draws one label, is bound to it in the
   * innermost frame and gets one storage directive.
   */
  function DeclareVariables(names: seq<string>, st: State): (r: State)
    requires 0 < |st.stack|
    ensures r.labelId == st.labelId + |names|
    ensures |r.stack| == |st.stack| && Outer(r.stack) == Outer(st.stack)
    ensures |r.out| == |st.out| + 2 * |names| && st.out <= r.out
    decreases |names|
  {
    if names == [] then st
    else
      var prev := DeclareVariables(names[..|names| - 1], st);
      var x := names[|names| - 1];
      var storage := VarLabel(x, prev.labelId + 1);
      State(prev.labelId + 1, Bind(prev.stack, x, Variable(storage)), prev.out + VarDirective(storage))
  }

  function ProcLabel(name: string, counter: nat): string {
    Label("p:" + name, counter)
  }

  /** The markdown banner written before a procedure's storage, kept as one opaque token. */
  function Banner(name: string): string {
    "````\n\n# Procedure " + name + "\n\n````"
  }

  /**
   * The state once a procedure's entry label is drawn, its name bound to it in
   * the enclosing frame, a frame pushed and its banner written.
   */
  function Entered(p: ProcDecl, st: State): State
    requires 0 < |st.stack|
  {
    var entry := ProcLabel(p.name, st.labelId + 1);
    State(st.labelId + 1, Bind(st.stack, p.name, Procedure(entry)) + [map[]], st.out + [Banner(p.name)])
  }

  /**
   * One procedure of `accept_procedures`: draw its entry label, bind it in the
   * enclosing frame, push a frame, declare the block's constants and variables
   * (its own procedures are not visited), write `:<entry>`, the body and `;`,
   * and pop. A failing body stops before `;` and leaves the frame pushed.
   */
  function DeclareProcedure(p: ProcDecl, st: State): (o: Outcome)
    requires 0 < |st.stack|
    ensures st.labelId < o.state.labelId && st.out <= o.state.out
    ensures o.err.None? ==> |o.state.stack| == |st.stack| && Outer(o.state.stack) == Outer(st.stack)
  {
    var entered := Entered(p, st);
    var declared := DeclareVariables(p.block.vars, DefineConstants(p.block.consts, entered));
    ProcedureBody(declared, ProcLabel(p.name, st.labelId + 1), StmtCode(p.block.body, declared.stack))
  }

  /**
   * A procedure's code once its declarations are written: `:<entry>`, the
   * body's code and, when the body ran to the end, `;` and the frame popped.
   */
  function ProcedureBody(declared: State, entry: string, body: Code): (o: Outcome)
    requires 0 < |declared.stack|
    ensures o.err == body.err && o.state.labelId == declared.labelId + body.used
    ensures declared.out + [":" + entry] + body.tokens <= o.state.out
    ensures o.state.stack == if o.err.None? then Outer(declared.stack) else declared.stack
  {
    var ran := State(declared.labelId + body.used, declared.stack, declared.out + [":" + entry] + body.tokens);
    if body.err.Some? then Outcome(ran, body.err)
    else Outcome(ran.(stack := Outer(ran.stack), out := ran.out + [";"]), None)
  }

  /** `DeclareProcedure` from the states after each of its steps. */
  lemma DeclareProcedureSteps(p: ProcDecl, st: State, entry: string, entered: State, declared: State, ran: State, err: Option<Error>)
    requires 0 < |st.stack|
    requires entry == ProcLabel(p.name, st.labelId + 1)
    requires entered == Entered(p, st)
    requires declared == DeclareVariables(p.block.vars, DefineConstants(p.block.consts, entered))
    requires var body := StmtCode(p.block.body, declared.stack);
      ran == State(declared.labelId + body.used, declared.stack, declared.out + [":" + entry] + body.tokens) && err == body.err
    ensures err.Some? ==> DeclareProcedure(p, st) == Outcome(ran, err)
    ensures err.None? ==> DeclareProcedure(p, st) == Outcome(ran.(stack := Outer(ran.stack), out := ran.out + [";"]), None)
  {
    var body := StmtCode(p.block.body, declared.stack);
    assert DeclareProcedure(p, st) == ProcedureBody(declared, entry, body);
    ProcedureBodySteps(declared, entry, body, ran);
  }

  /** `ProcedureBody` from the state after the body ran. */
  lemma ProcedureBodySteps(declared: State, entry: string, body: Code, ran: State)
    requires 0 < |declared.stack|
    requires ran == State(declared.labelId + body.used, declared.stack, declared.out + [":" + entry] + body.tokens)
    ensures body.err.Some? ==> ProcedureBody(declared, entry, body) == Outcome(ran, body.err)
    ensures body.err.None? ==> ProcedureBody(declared, entry, body) == Outcome(ran.(stack := Outer(ran.stack), out := ran.out + [";"]), None)
  {
  }

  /** `accept_procedures`: the procedures in declaration order, stopping at the first error. */
  function DeclareProcedures(procs: seq<ProcDecl>, st: State): (o: Outcome)
    requires 0 < |st.stack|
  {
    DeclareProceduresFrom(procs, 0, st)
  }

  /** The procedures of a declaration group from index `i` on. */
  function DeclareProceduresFrom(procs: seq<ProcDecl>, i: nat, st: State): (o: Outcome)
    requires 0 < |st.stack| && i <= |procs|
    ensures st.labelId <= o.state.labelId && st.out <= o.state.out
    ensures o.err.None? ==> st.labelId + (|procs| - i) <= o.state.labelId
    ensures o.err.None? ==> |o.state.stack| == |st.stack| && Outer(o.state.stack) == Outer(st.stack)
    decreases |procs| - i
  {
    if i == |procs| then Outcome(st, None)
    else
      var first := DeclareProcedure(procs[i], st);
      if first.err.Some? then first else DeclareProceduresFrom(procs, i + 1, first.state)
  }

  /**
   * `accept_program`: the root block's three declaration groups in the current
   * frame, then the main block.
   */
  function CompileProgram(prog: Program, st: State): (o: Outcome)
    requires 0 < |st.stack|
    ensures st.labelId <= o.state.labelId && st.out <= o.state.out
    ensures o.err.None? ==> |o.state.stack| == |st.stack| && Outer(o.state.stack) == Outer(st.stack)
  {
    var b := prog.block;
    var declared := DeclareVariables(b.vars, DefineConstants(b.consts, st));
    var procs := DeclareProcedures(b.procs, declared);
    if procs.err.Some? then procs
    else MainBlock(procs.state, StmtCode(b.body, procs.state.stack))
  }

  /**
   * The program's main block, once its declarations are written: `:main`, the
   * body's code and, when the body ran to the end, `;` and the call `main`.
   */
  function MainBlock(procs: State, body: Code): (o: Outcome)
    ensures o.err == body.err && o.state.stack == procs.stack && o.state.labelId == procs.labelId + body.used
    ensures procs.out + [":main"] + body.tokens <= o.state.out
  {
    var ran := State(procs.labelId + body.used, procs.stack, procs.out + [":main"] + body.tokens);
    if body.err.Some? then Outcome(ran, body.err)
    else Outcome(ran.(out := ran.out + [";"] + ["main"]), None)
  }

  /** The program's global frame: the innermost frame once `accept_program` has run in a fresh frame. */
  function Globals(prog: Program, st: State): Frame {
    var o := CompileProgram(prog, st.(stack := st.stack + [map[]]));
    if 0 < |o.state.stack| then Innermost(o.state.stack) else map[]
  }

  /** `generate`: push a frame, compile the program, pop the frame. */
  function Generation(prog: Program, st: State): (o: Outcome)
    ensures st.labelId <= o.state.labelId && st.out <= o.state.out
    ensures o.err.None? ==> o.state.stack == st.stack
  {
    var pushed := st.(stack := st.stack + [map[]]);
    var o := CompileProgram(prog, pushed);
    if o.err.Some? then o
    else Outcome(o.state.(stack := Outer(o.state.stack)), None)
  }

  /** Once the first `k` pairs of a term or an expression stop with an error, later pairs add nothing. */
  lemma {:induction false} OperandsStopAtError(e: Expr, k: nat, n: nat, env: seq<Frame>)
    requires (e.Term? || e.Expression?) && k <= n <= |e.rest|
    requires OperandsCode(e, k, env).err.Some?
    ensures OperandsCode(e, n, env) == OperandsCode(e, k, env)
    decreases n
  {
    if k < n {
      OperandsStopAtError(e, k, n - 1, env);
    }
  }

  /** Once the first `k` statements of a compound statement stop with an error, later ones add nothing. */
  lemma {:induction false} StmtsStopAtError(s: Stmt, k: nat, n: nat, env: seq<Frame>)
    requires s.Begin? && k <= n <= |s.stmts|
    requires StmtsCode(s, k, env).err.Some?
    ensures StmtsCode(s, n, env) == StmtsCode(s, k, env)
    decreases n
  {
    if k < n {
      StmtsStopAtError(s, k, n - 1, env);
    }
  }

  // Closed forms of the handlers' effects, one per way a handler can end; the
  // generator's methods follow these step by step.

  /** A `while` ends in its body, in its condition, or after `] while`. */
  lemma WhileCode(s: Stmt, env: seq<Frame>)
    requires s.While?
    ensures var body, cond := StmtCode(s.body, env), CondCode(s.cond, env);
      StmtCode(s, env) ==
        if body.err.Some? then Code(["["] + body.tokens, body.err, 2 + body.used)
        else if cond.err.Some? then Code(["["] + body.tokens + cond.tokens, cond.err, 2 + body.used)
        else Code(["["] + body.tokens + cond.tokens + ["]", "while"], None, 2 + body.used)
  {
    var body, cond := StmtCode(s.body, env), CondCode(s.cond, env);
    assert StmtCode(s, env) == Then(Code(["["], None, 2), Then(body, Then(cond, Emit(["]", "while"]))));
    if body.err.None? {
      AppendAssoc(["["], body.tokens, cond.tokens);
      if cond.err.None? {
        AppendAssoc(["["], body.tokens, cond.tokens + ["]", "while"]);
        AppendAssoc(["["] + body.tokens, cond.tokens, ["]", "while"]);
      }
    }
  }

  /** An `if` ends in its condition, in its body, or after `] if`. */
  lemma IfCode(s: Stmt, env: seq<Frame>)
    requires s.If?
    ensures var cond, body := CondCode(s.cond, env), StmtCode(s.body, env);
      StmtCode(s, env) ==
        if cond.err.Some? then Code(cond.tokens, cond.err, 1)
        else if body.err.Some? then Code(cond.tokens + ["["] + body.tokens, body.err, 1 + body.used)
        else Code(cond.tokens + ["["] + body.tokens + ["]", "if"], None, 1 + body.used)
  {
  }

  /** A condition ends in its left side, its right side, or at the `rel_ops` lookup. */
  lemma CondShape(c: Condition, env: seq<Frame>)
    ensures var lhs, rhs := ExprCode(c.lhs, env), ExprCode(c.rhs, env);
      CondCode(c, env) ==
        if lhs.err.Some? then lhs
        else if rhs.err.Some? then Code(lhs.tokens + rhs.tokens, rhs.err, 0)
        else Code(lhs.tokens + rhs.tokens + RelationCode(c.op).tokens, RelationCode(c.op).err, 0)
  {
  }

  /** A term or an expression ends in its first operand, in a later pair, or after its last pair. */
  lemma OperatorChainShape(e: Expr, env: seq<Frame>)
    requires e.Term? || e.Expression?
    ensures var first, pairs := ExprCode(e.first, env), OperandsCode(e, |e.rest|, env);
      ExprCode(e, env) ==
        if first.err.Some? then first
        else if pairs.err.Some? then Code(first.tokens + pairs.tokens, pairs.err, 0)
        else Code(first.tokens + pairs.tokens + (if e.Expression? then NegateToken(e.sign) else []), None, 0)
  {
  }

  /** A compound statement is its statements in order. */
  lemma BeginCode(s: Stmt, env: seq<Frame>)
    requires s.Begin?
    ensures StmtCode(s, env) == StmtsCode(s, |s.stmts|, env)
  {
  }

}
