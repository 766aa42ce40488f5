/**
 * The part of the Retro 12 machine that the generated expressions and
 * conditions use: a data stack of integers, named variables in memory, the
 * `#` (number), `@` (fetch) and `(` (comment) sigils, the arithmetic words,
 * `n:negate` and the comparison words, which leave Retro's flags (-1 for
 * true, 0 for false).
 */
module Retro {
  import opened Wrappers
  import opened Decimal

  type Stack = seq<int>
  type Memory = map<string, int>

  /** Retro's flags. */
  function Flag(b: bool): int {
    if b then -1 else 0
  }

  /** Division rounding towards zero. */
  function TruncDiv(a: int, b: int): int
    requires b != 0
  {
    var m := Abs(a) / Abs(b);
    if (a < 0) == (b < 0) then m else -m
  }

  function Abs(a: int): nat {
    if a < 0 then -a else a
  }

  predicate IsBinary(word: string) {
    word in {"+", "-", "*", "/", "lt?", "lteq?", "gt?", "gteq?", "eq?", "-eq?"}
  }

  /** A word that takes `a` (below) and `b` (on top) and leaves one value; division by zero fails. */
  function Binary(word: string, a: int, b: int): Option<int>
    requires IsBinary(word)
  {
    match word
    case "+" => Some(a + b)
    case "-" => Some(a - b)
    case "*" => Some(a * b)
    case "/" => if b == 0 then None else Some(TruncDiv(a, b))
    case "lt?" => Some(Flag(a < b))
    case "lteq?" => Some(Flag(a <= b))
    case "gt?" => Some(Flag(a > b))
    case "gteq?" => Some(Flag(a >= b))
    case "eq?" => Some(Flag(a == b))
    case _ => Some(Flag(a != b))
  }

  /** One token; `None` when the machine would stop with an error. */
  function Step(token: string, s: Stack, mem: Memory): Option<Stack> {
    if IsBinary(token) then
      if |s| < 2 then None
      else
        match Binary(token, s[|s| - 2], s[|s| - 1])
        case None => None
        case Some(v) => Some(s[..|s| - 2] + [v])
    else if token == "n:negate" then
      if |s| < 1 then None else Some(s[..|s| - 1] + [-s[|s| - 1]])
    else if 0 < |token| && token[0] == '#' then
      match ParseInt(token[1..])
      case None => None
      case Some(v) => Some(s + [v])
    else if 0 < |token| && token[0] == '@' then
      if token[1..] in mem then Some(s + [mem[token[1..]]]) else None
    else if 0 < |token| && token[0] == '(' then Some(s)
    else None
  }

  /** The tokens in order, stopping at the first that fails. */
  function Run(tokens: seq<string>, s: Stack, mem: Memory): Option<Stack>
    decreases |tokens|
  {
    if tokens == [] then Some(s)
    else
      match Step(tokens[0], s, mem)
      case None => None
      case Some(t) => Run(tokens[1..], t, mem)
  }

  /** Running two pieces of code is running the first, then the second on what it left. */
  lemma {:induction false} RunAppend(a: seq<string>, b: seq<string>, s: Stack, mem: Memory)
    ensures Run(a + b, s, mem) == match Run(a, s, mem) case None => None case Some(t) => Run(b, t, mem)
    decreases |a|
  {
    if a != [] {
      assert (a + b)[0] == a[0] && (a + b)[1..] == a[1..] + b;
      match Step(a[0], s, mem)
      case None =>
      case Some(t) => RunAppend(a[1..], b, t, mem);
    } else {
      assert a + b == b;
    }
  }

  /** A `#` literal written from an integer pushes that integer. */
  lemma PushLiteral(n: int, s: Stack, mem: Memory)
    ensures Run(["#" + IntToString(n)], s, mem) == Some(s + [n])
  {
    var token := "#" + IntToString(n);
    assert token[1..] == IntToString(n);
    IntToStringRoundTrip(n);
    assert !IsBinary(token) by {
      assert token[0] == '#';
    }
  }
}
