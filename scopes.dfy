/**
 * The lexical scope stack the code generator inherits from its visitor base
 * class: a sequence of frames, innermost last. `update`, `define` and `declare`
 * bind a variable, a constant and a procedure in the innermost frame; `find`
 * searches from the innermost frame outwards.
 */
module Scopes {
  import opened Wrappers

  /** What a name is bound to: a variable's storage label, a constant's value, a procedure's entry label. */
  datatype Symbol = Variable(storage: string) | Constant(value: int) | Procedure(entry: string)

  type Frame = map<string, Symbol>

  /** The binding of `name` in the innermost frame that has one. */
  function Lookup(stack: seq<Frame>, name: string): (r: Option<Symbol>)
    ensures r.Some? ==> exists i :: 0 <= i < |stack| && name in stack[i] && stack[i][name] == r.value
    ensures 0 < |stack| && name in stack[|stack| - 1] ==> r == Some(stack[|stack| - 1][name])
  {
    if |stack| == 0 then None
    else if name in stack[|stack| - 1] then Some(stack[|stack| - 1][name])
    else Lookup(stack[..|stack| - 1], name)
  }

  /** The stack with `name` bound to `sym` in its innermost frame and every outer frame as it was. */
  function Bind(stack: seq<Frame>, name: string, sym: Symbol): (r: seq<Frame>)
    requires 0 < |stack|
    ensures |r| == |stack| && r[..|r| - 1] == stack[..|stack| - 1]
    ensures r[|r| - 1] == stack[|stack| - 1][name := sym]
  {
    stack[..|stack| - 1] + [stack[|stack| - 1][name := sym]]
  }

  /** Frame `i` binds `name` and no frame inside it does. */
  predicate InnermostAt(stack: seq<Frame>, name: string, i: int) {
    0 <= i < |stack| && name in stack[i] && forall j :: i < j < |stack| ==> name !in stack[j]
  }

  /** `Lookup` finds a binding exactly when some frame of the stack holds one. */
  lemma {:induction false} LookupDefinedIffBound(stack: seq<Frame>, name: string)
    ensures Lookup(stack, name).Some? <==> exists i :: 0 <= i < |stack| && name in stack[i]
    decreases |stack|
  {
    if |stack| > 0 {
      var n := |stack| - 1;
      if name in stack[n] {
        assert 0 <= n < |stack| && name in stack[n];
      } else {
        var outer := stack[..n];
        LookupDefinedIffBound(outer, name);
        if i :| 0 <= i < |stack| && name in stack[i] {
          assert 0 <= i < |outer| && name in outer[i];
        }
      }
    }
  }

  /** What `Lookup` finds is the binding of the innermost frame that binds the name. */
  lemma {:induction false} LookupInnermost(stack: seq<Frame>, name: string, i: int)
    requires InnermostAt(stack, name, i)
    ensures Lookup(stack, name) == Some(stack[i][name])
    decreases |stack|
  {
    var n := |stack| - 1;
    if i < n {
      var outer := stack[..n];
      assert name !in stack[n];
      assert forall j :: i < j < n ==> outer[j] == stack[j];
      assert InnermostAt(outer, name, i);
      LookupInnermost(outer, name, i);
    }
  }

  /** Binding in the innermost frame changes what `name` resolves to and nothing else. */
  lemma LookupAfterBind(stack: seq<Frame>, name: string, sym: Symbol, other: string)
    requires 0 < |stack|
    ensures Lookup(Bind(stack, name, sym), name) == Some(sym)
    ensures other != name ==> Lookup(Bind(stack, name, sym), other) == Lookup(stack, other)
  {
  }

  /** A freshly pushed, empty frame hides nothing; popping it restores the stack. */
  lemma LookupThroughEmptyFrame(stack: seq<Frame>, name: string)
    ensures Lookup(stack + [map[]], name) == Lookup(stack, name)
    ensures (stack + [map[]])[..|stack|] == stack
  {
    assert (stack + [map[]])[..|stack|] == stack;
  }
}
