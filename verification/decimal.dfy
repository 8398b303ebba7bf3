/** Counting decimal separators in the input buffer. */
module Decimal {

  /** The number of '.' characters in `s`. */
  function DotCount(s: string): nat
    decreases |s|
  {
    if s == [] then 0
    else DotCount(s[..|s| - 1]) + (if s[|s| - 1] == '.' then 1 else 0)
  }

  /** The input-buffer invariant: at most one decimal separator. */
  predicate AtMostOneDot(s: string) {
    DotCount(s) <= 1
  }

  /** Dots in a concatenation are the dots of the two parts. */
  lemma {:induction false} DotCountConcat(a: string, b: string)
    ensures DotCount(a + b) == DotCount(a) + DotCount(b)
    decreases |b|
  {
    if b == [] {
      assert a + b == a;
    } else {
      DotCountConcat(a, b[..|b| - 1]);
      assert (a + b)[..|a + b| - 1] == a + b[..|b| - 1];
    }
  }

  /** The count is positive exactly when the string contains a '.'. */
  lemma {:induction false} DotCountPositiveIffContainsDot(s: string)
    ensures DotCount(s) > 0 <==> '.' in s
    decreases |s|
  {
    if s != [] {
      var init := s[..|s| - 1];
      DotCountPositiveIffContainsDot(init);
      assert s == init + [s[|s| - 1]];
      assert '.' in s <==> '.' in init || s[|s| - 1] == '.';
    }
  }

}
