# PL/0 to Retro 12: the code-generation pass

This project models the code generator of a PL/0 to Retro 12 translator. It is
class `Compiler` in `pl0_retro12.py`, a visitor that walks an already-parsed
PL/0 syntax tree once and writes postfix source for the Retro 12 Forth-style
stack machine. The generator keeps three pieces of state, and the model keeps
them as the fields of class `Pl0Retro12.Compiler`:

- `labelId`, the label counter. `intermediate_label` increments it and names a
  label `PL0:` + hint + the counter's decimal value.
- `stack`, the lexical scope frames. Each frame maps a name to a variable's
  storage label, a constant's value or a procedure's entry label.
- `out`, the output, as a sequence of whitespace-separated tokens. Every
  `print` call appends to it.

Each `accept_*` handler is a method of the class. Each method is proved
against a pure specification function in module `Emission`:

- statements and expressions give a `Code`: the tokens written, the error
  stopped with and the labels drawn;
- declarations are state transformers over `State(labelId, stack, out)`.

A `NameError` becomes an `Error` value. So do a `find` of an undeclared name
and the `KeyError` of a relation missing from `rel_ops`. Every caller passes
the error on at once, so the output keeps what was written before the error,
and a procedure whose body fails keeps its frame pushed.

The lemmas state what the handlers promise:

- emission order: assignment, call, value reference, condition, term and
  expression (`Handlers`);
- which names each declaration binds, and where its directives go
  (`Declarations`);
- label distinctness, under a hint that does not end in a digit, together with
  the collision when it does (`Labels`).

A small model of the Retro machine (`Retro`) runs the tokens the generator
writes for expressions and conditions. `Evaluation` proves that an expression's
tokens leave exactly its value on top of the stack, and that a condition's
tokens leave Retro's flag. `Example` proves what the whole generator writes
for a program with one variable, an assignment and a conditional print.

Modules: `Wrappers`, `Decimal`, `Labels`, `Ast`, `Scopes`, `Emission`,
`Declarations`, `Handlers`, `Retro`, `Evaluation`, `Example` and `Pl0Retro12`.

## Model

| member | source | states |
|---|---|---|
| Pl0Retro12.Compiler.constructor | pl0_retro12.py:52-54 | a new generator starts with counter 0, no frames and no output |
| Pl0Retro12.Compiler.Output | pl0_retro12.py:74 | one `print` call appends its tokens to the output and changes nothing else |
| Pl0Retro12.Compiler.IntermediateLabel | pl0_retro12.py:56-58 | the counter goes up by exactly one and the label is `PL0:` + hint + the decimal of the new counter value |
| Pl0Retro12.Compiler.Push | pl0_retro12.py:89 | one empty innermost frame is added |
| Pl0Retro12.Compiler.Pop | pl0_retro12.py:101 | the innermost frame is removed and returned |
| Pl0Retro12.Compiler.Find | pl0_retro12.py:159 | the loop from the innermost frame outwards returns the binding `Lookup` specifies, or none |
| Pl0Retro12.Compiler.Update | pl0_retro12.py:71 | a variable is bound in the innermost frame only |
| Pl0Retro12.Compiler.Define | pl0_retro12.py:78 | a constant is bound in the innermost frame only |
| Pl0Retro12.Compiler.Declare | pl0_retro12.py:86 | a procedure is bound in the innermost frame only |
| Pl0Retro12.Compiler.Generate | pl0_retro12.py:60-63 | the new counter, stack, output and error are those of `Generation`; on success the popped global frame is returned |
| Pl0Retro12.Compiler.AcceptVariables | pl0_retro12.py:65-74 | the loop leaves exactly the state `DeclareVariables` specifies |
| Pl0Retro12.Compiler.AcceptConstants | pl0_retro12.py:76-78 | the loop leaves exactly the state `DefineConstants` specifies |
| Pl0Retro12.Compiler.AcceptProcedures | pl0_retro12.py:80-101 | the loop over the procedures, stopping at the first error, leaves the state and error `DeclareProcedures` specifies |
| Pl0Retro12.Compiler.AcceptProcedure | pl0_retro12.py:82-101 | one procedure (label, declare, push, banner, constants and variables, `:entry`, body, `;`, pop) leaves the state and error `DeclareProcedure` specifies |
| Pl0Retro12.Compiler.AcceptProgram | pl0_retro12.py:103-110 | the state and error are those of `CompileProgram` |
| Pl0Retro12.Compiler.AcceptWhile | pl0_retro12.py:112-124 | writes the `while` statement's code and draws its labels, as `StmtCode` specifies |
| Pl0Retro12.Compiler.AcceptIf | pl0_retro12.py:127-138 | writes the `if` statement's code and draws its label, as `StmtCode` specifies |
| Pl0Retro12.Compiler.AcceptCondition | pl0_retro12.py:142-151 | appends exactly `CondCode`'s tokens and returns its error |
| Pl0Retro12.Compiler.AcceptSet | pl0_retro12.py:153-164 | appends exactly the assignment's tokens, returns its error and draws no label |
| Pl0Retro12.Compiler.AcceptCall | pl0_retro12.py:166-172 | appends exactly the call's tokens, returns its error and draws no label |
| Pl0Retro12.Compiler.AcceptTerm | pl0_retro12.py:174-183 | appends exactly `ExprCode`'s tokens for the term and returns its error |
| Pl0Retro12.Compiler.AcceptExpression | pl0_retro12.py:185-198 | appends exactly `ExprCode`'s tokens for the expression, `n:negate` included, and returns its error |
| Pl0Retro12.Compiler.AcceptOperands | pl0_retro12.py:177-195 | the loop over the `(tag, operand)` pairs appends exactly `OperandsCode`'s tokens and stops at the first error |
| Pl0Retro12.Compiler.AcceptOperand | pl0_retro12.py:178-183 | one pair: its operand, then the operator token its tag names |
| Pl0Retro12.Compiler.AcceptPrint | pl0_retro12.py:200-202 | appends the value's tokens and `putn nl`, returns the value's error and draws no label |
| Pl0Retro12.Compiler.AcceptNumber | pl0_retro12.py:205-206 | appends the one token `#` + the decimal of the number |
| Pl0Retro12.Compiler.AcceptName | pl0_retro12.py:208-216 | appends exactly `NameCode`'s tokens and returns its error |
| Decimal.NatToString | pl0_retro12.py:58 | a label's counter suffix is a non-empty digit string, one digit long exactly when the value is below 10 |
| Decimal.NatToStringRoundTrip | pl0_retro12.py:58 | reading the digits of a counter value back gives that value |
| Decimal.NatToStringInjective | pl0_retro12.py:58 | different counter values have different suffixes |
| Decimal.IntToString | pl0_retro12.py:206 | an integer's text is non-empty and starts with `-` exactly when the integer is negative |
| Decimal.IntToStringRoundTrip | pl0_retro12.py:206 | reading an integer's text back gives that integer |
| Labels.LabelInjective | pl0_retro12.py:56-58 | if neither hint ends in a digit, equal labels have equal hints and equal counter values, so different counter values give different labels |
| Labels.LabelCollision | pl0_retro12.py:58 | `v:x1` with counter 2 and `v:x` with counter 12 both give `PL0:v:x12` |
| Scopes.Lookup | pl0_retro12.py:159 | `find`'s contract: whatever it finds is the name's binding in some frame, and a name bound in the innermost frame resolves to that binding (the whole search order is `LookupInnermost`) |
| Scopes.Bind | pl0_retro12.py:71 | binding keeps the depth and every outer frame, and changes only the one name in the innermost frame |
| Scopes.LookupDefinedIffBound | pl0_retro12.py:159 | a lookup finds a binding if and only if some frame binds the name |
| Scopes.LookupInnermost | pl0_retro12.py:209 | a lookup returns the binding of the innermost frame that binds the name |
| Scopes.LookupAfterBind | pl0_retro12.py:71 | after a bind the name resolves to the new symbol, and every other name resolves as before |
| Scopes.LookupThroughEmptyFrame | pl0_retro12.py:89 | a freshly pushed frame hides nothing, and popping it restores the stack |
| Emission.ExprCode | pl0_retro12.py:174-216 | expressions never draw a label |
| Emission.CondCode | pl0_retro12.py:142-151 | conditions never draw a label |
| Emission.StmtCode | pl0_retro12.py:112-172 | a statement draws at most two labels per `while` and one per `if`, and exactly that many when it does not stop with an error |
| Emission.DefineConstants | pl0_retro12.py:76-78 | constants write nothing, draw no label, and keep the depth and every outer frame |
| Emission.DeclareVariables | pl0_retro12.py:65-74 | variables draw exactly one label each and write exactly two tokens each, after the existing output; they keep the depth and every outer frame |
| Emission.DeclareProcedure | pl0_retro12.py:80-101 | a procedure always draws a label and only appends to the output; on success it restores the depth and every outer frame |
| Emission.ProcedureBody | pl0_retro12.py:95-101 | a procedure's code carries the body's error, draws exactly the body's labels and writes `:<entry>` followed by the body's code after its declarations; on success its frame is popped, on a body error the frame stays pushed |
| Emission.DeclareProceduresFrom | pl0_retro12.py:80-101 | on success, a group of procedures draws at least one label per procedure and leaves the scope depth and the outer frames as they were |
| Emission.CompileProgram | pl0_retro12.py:103-110 | the program only appends to the output and never lowers the counter; on success it leaves the depth and the outer frames as they were |
| Emission.MainBlock | pl0_retro12.py:107-110 | the main block carries the body's error, draws exactly the body's labels, keeps the scope and writes `:main` followed by the body's code after what was already written |
| Emission.Generation | pl0_retro12.py:60-63 | on success the scope stack is exactly the one `generate` started with |
| Emission.OperandsStopAtError | pl0_retro12.py:189-195 | once a pair stops with an error, later pairs add no tokens |
| Emission.WhileCode | pl0_retro12.py:112-124 | a `while` writes `[`, its body, its condition, then `] while`, draws 2 labels plus its body's, and stops after the body's or the condition's tokens on their error |
| Emission.IfCode | pl0_retro12.py:127-138 | an `if` writes its condition, `[`, its body, then `] if`, draws 1 label plus its body's, and stops after the condition's or the body's tokens on their error |
| Emission.CondShape | pl0_retro12.py:142-151 | a condition writes its left side, its right side, then the `rel_ops` word, and stops at the first error |
| Emission.OperatorChainShape | pl0_retro12.py:174-198 | a term or expression writes its first operand, then its pairs, then `n:negate` for a leading minus, and stops at the first error |
| Declarations.VariableDirectives | pl0_retro12.py:65-74 | the `i`-th variable's directive `'<label> var` sits at output offset `2i`, with the label drawn at counter value start + `i` + 1 |
| Declarations.VariableBindings | pl0_retro12.py:68-71 | the last declaration of a name binds it in the innermost frame to its own label |
| Declarations.VariablesHideOnlyThemselves | pl0_retro12.py:71 | a name that is not declared resolves as before |
| Declarations.VariableLabelsDistinct | pl0_retro12.py:68 | if no hint ends in a digit, the variables of one group get pairwise different labels |
| Declarations.ConstantBindings | pl0_retro12.py:76-78 | the last definition of a name binds it in the innermost frame to its value, and every other name resolves as before |
| Declarations.ProcedureEffect | pl0_retro12.py:80-101 | the output starts with the banner; on success the procedure's name is bound to its entry label in the enclosing frame, `:<entry>` follows the variable directives and the last token is `;` |
| Declarations.ProgramEffect | pl0_retro12.py:103-110 | once the program's declarations and procedures are written without error, `:main` comes next, then the main body's code; on success the output ends with `;` and the call `main`, on a body error it ends with the body's partial code and carries that error; the counter grows by the body's labels and the scope is the one the declarations built |
| Declarations.ProcedureSeesItself | pl0_retro12.py:83-97 | unless its own declarations shadow it, the body resolves the procedure's name to its entry label |
| Declarations.NestedProceduresIgnored | pl0_retro12.py:93 | a procedure's own procedure group has no effect on what it emits |
| Handlers.AssignmentOrder | pl0_retro12.py:153-164 | the right-hand side comes first; the assignment succeeds exactly when the value succeeds and the target is a variable, then writes `!<storage>` last; any other kind of target fails after the value's tokens |
| Handlers.CallResolution | pl0_retro12.py:166-172 | a call succeeds exactly for a procedure and writes only its entry label; otherwise it writes nothing |
| Handlers.ValueReference | pl0_retro12.py:208-216 | a name is a value exactly when it is bound and is not a procedure; a variable writes `@<storage>`; a constant writes three tokens, none a load, whose middle literal reads back as the value |
| Handlers.PrintOrder | pl0_retro12.py:200-202 | `print` writes its value, then `putn nl`, draws no label, and stops with the value's error before `putn nl` |
| Handlers.NumberLiteral | pl0_retro12.py:205-206 | a number writes one `#` literal that reads back as the number |
| Handlers.ConditionOrder | pl0_retro12.py:142-151 | a condition succeeds exactly when both sides do and the operator is in `rel_ops`; it writes lhs, rhs, word; an unknown operator fails after both sides |
| Handlers.RelOpsTable | pl0_retro12.py:41-48 | `rel_ops` has the six PL/0 comparisons, each with its own Retro word |
| Handlers.OperandsIgnoreSign | pl0_retro12.py:189-195 | an expression's pairs are written the same whatever its sign |
| Handlers.LeadingMinusNegatesWhole | pl0_retro12.py:185-198 | with sign `MINUS` an expression writes the same tokens as without it, plus one `n:negate` at the very end |
| Handlers.DigitLiteral | pl0_retro12.py:205-206 | a one-digit number is written as `#` and that digit |
| Handlers.SumOfProduct | pl0_retro12.py:174-198 | `a + b * c` is written `a b c * +` |
| Handlers.UnknownTagWritesNoOperator | pl0_retro12.py:177-195 | a pair at any position whose tag is not `TIMES` or `DIVIDES` in a term (such as `MODULO` or `DIVIDE`), or not `PLUS` or `MINUS` in an expression, writes exactly its operand's code and no operator |
| Handlers.ModuloWritesNoOperator | pl0_retro12.py:180-183 | `a MODULO b` is written as `a` followed by `b`, with no operator |
| Handlers.MinusAppliesToSum | pl0_retro12.py:185-198 | `-a + b` is written `a b + n:negate` |
| Handlers.TwoPlusThreeTimesFour | pl0_retro12.py:174-206 | `2 + 3 * 4` is written `#2 #3 #4 * +` |
| Retro.PushLiteral | pl0_retro12.py:206 | a `#` literal the generator writes pushes exactly its number |
| Evaluation.ExprLeavesValue | pl0_retro12.py:185-198 | an expression with a value is written without error, and its tokens leave exactly that value on top of the stack |
| Evaluation.FoldLeavesValue | pl0_retro12.py:174-195 | the first operand and the first `n` pairs leave the left-to-right fold of their values |
| Evaluation.PrintLeavesValue | pl0_retro12.py:200-202 | for a value-bearing expression, `print` ends in `putn nl` and the tokens before them leave exactly the value on top of the stack |
| Evaluation.NameLeavesValue | pl0_retro12.py:208-214 | a variable's load and a constant's commented literal push the name's value |
| Evaluation.LoadStep | pl0_retro12.py:211-212 | a variable's `@<storage>` pushes what its storage holds |
| Evaluation.CommentedLiteralStep | pl0_retro12.py:213-214 | a constant's `(a) #<v> (b)` pushes exactly `v`, the comments leaving the stack alone |
| Evaluation.NegateStep | pl0_retro12.py:197-198 | `n:negate` after a value negates it exactly when the sign is `MINUS` |
| Evaluation.OperatorStep | pl0_retro12.py:180-195 | the operator token of a known tag combines the two values on top of the stack |
| Evaluation.CondLeavesFlag | pl0_retro12.py:142-151 | a condition's tokens leave Retro's flag (-1 or 0) for whether it holds |
| Evaluation.RelationStep | pl0_retro12.py:41-48 | each `rel_ops` word replaces the two values on top with the flag of its comparison |
| Evaluation.UnknownTagLeavesBothOperands | pl0_retro12.py:177-183 | `a MODULO b` leaves both operands on the stack, not one value |
| Evaluation.LeadingMinusComputesNegatedSum | pl0_retro12.py:185-198 | `-a + b` computes `-(a + b)` |
| Example.VariableLabel | pl0_retro12.py:68 | the first variable `x` gets label `PL0:v:x1` |
| Example.Declarations | pl0_retro12.py:65-74 | `var x;` writes `'PL0:v:x1 var` and binds `x` |
| Example.Assignment | pl0_retro12.py:153-164 | `x := 1` is written `#1 !PL0:v:x1` |
| Example.Conditional | pl0_retro12.py:127-151 | `if x < 2 then ! x` is written `@PL0:v:x1 #2 lt? [ @PL0:v:x1 putn nl ] if` and draws one label |
| Example.Generated | pl0_retro12.py:60-110 | `generate` on the example writes the full token sequence ending `; main`, draws two labels and restores the stack |

## Left out

- The command-line driver (`pl0_retro12.py:218-230`) is left out. It reads a file, prints usage text and the support-code banner: all I/O.
- The parser is not part of this model. The syntax tree is an input.
- The visitor base class's string-keyed dispatch is not part of this model. `VisitStmt` and `VisitExpr` match on the node datatype instead.
- The scope stack's own code is not part of this model. `Lookup`, `Bind`, `Push` and `Pop` model its contract.
- An undeclared name is modelled as an `UnresolvedIdentifier` error, because what `find` does then is not visible.
- The compound statement `begin ... end` has no handler in this file. `AcceptBegin` models it as its statements in order, stopping at the first error.
- Output layout is not modelled: whitespace, newlines and `end=''` are reduced to a token sequence. The `# Procedure` banner is kept as one opaque token.
- The `ops` table (`pl0_retro12.py:33-39`) is left out because no handler reads it.
- The `level` that `find` returns is left out because every handler ignores it.
- `odd` conditions are left out because the file has no handler for them.
- Labels.LabelInjective: label distinctness is proved only for hints that do not end in a digit. `LabelCollision` shows that it fails otherwise.
- The Retro machine covers only what expressions and conditions use: sigils `#`, `@` and `(`, arithmetic, `n:negate` and the comparison words. Division is taken to round towards zero. Quotations, `while`, `if`, stores and calls are not executed, so the model does not state what the emitted statements do at run time.
- Retro cells are unbounded integers. Machine word wrap-around is not modelled.
