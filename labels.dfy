/**
 * The label allocator of the code generator: a label is the namespace `PL0:`,
 * a human-readable hint and the decimal value of the counter just incremented.
 */
module Labels {
  import opened Decimal

  const Namespace := "PL0:"

  function Label(hint: string, counter: nat): string {
    Namespace + hint + NatToString(counter)
  }

  predicate EndsInDigit(s: string) {
    0 < |s| && IsDigit(s[|s| - 1])
  }

  /**
   * When two concatenations agree and the second digit string is the longer,
   * the last character of the first prefix lies inside that digit string.
   */
  lemma LastOfPrefixIsDigit(a: string, d1: string, b: string, d2: string)
    ensures a + d1 == b + d2 && AllDigits(d2) && |d1| < |d2| && 0 < |a| ==> IsDigit(a[|a| - 1])
  {
    if a + d1 == b + d2 && AllDigits(d2) && |d1| < |d2| && 0 < |a| {
      var s := a + d1;
      assert s[|a| - 1] == a[|a| - 1];
      assert s[|a| - 1] == d2[|a| - 1 - |b|];
    }
  }

  /**
   * Two strings that each end in a non-digit, followed by digit strings: if the
   * concatenations agree, the split points agree.
   */
  lemma DigitSuffixSplit(a: string, d1: string, b: string, d2: string)
    requires 0 < |a| && 0 < |b| && !EndsInDigit(a) && !EndsInDigit(b)
    requires AllDigits(d1) && AllDigits(d2)
    requires a + d1 == b + d2
    ensures a == b && d1 == d2
  {
    LastOfPrefixIsDigit(a, d1, b, d2);
    LastOfPrefixIsDigit(b, d2, a, d1);
    var s := a + d1;
    assert |a| == |b|;
    assert a == s[..|a|] == b;
    assert d1 == s[|a|..] == d2;
  }

  /**
   * As long as no hint ends in a digit, the label determines both its hint and
   * its counter value: labels drawn with different counter values differ.
   */
  lemma LabelInjective(h1: string, n1: nat, h2: string, n2: nat)
    requires !EndsInDigit(h1) && !EndsInDigit(h2)
    requires Label(h1, n1) == Label(h2, n2)
    ensures h1 == h2 && n1 == n2
  {
    var a, b := Namespace + h1, Namespace + h2;
    assert !EndsInDigit(a) by {
      if h1 != [] { assert a[|a| - 1] == h1[|h1| - 1]; }
    }
    assert !EndsInDigit(b) by {
      if h2 != [] { assert b[|b| - 1] == h2[|h2| - 1]; }
    }
    assert a + NatToString(n1) == b + NatToString(n2);
    DigitSuffixSplit(a, NatToString(n1), b, NatToString(n2));
    assert h1 == a[|Namespace|..] && h2 == b[|Namespace|..];
    NatToStringInjective(n1, n2);
  }

  /**
   * Hints come from identifiers, which may end in digits: variable `x1` labelled
   * with counter 2 and variable `x` labelled with counter 12 share a label.
   */
  lemma LabelCollision()
    ensures Label("v:" + "x1", 2) == Label("v:" + "x", 12)
    ensures Label("v:" + "x", 12) == "PL0:v:x12"
  {
    assert NatToString(2) == "2";
    assert NatToString(12) == NatToString(1) + [DigitChar(2)] == "12";
  }
}
