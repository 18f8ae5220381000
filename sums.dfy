/** Python's `sum` over integer and real lists, added up left to right. */
module Sums {

  /** `sum(s)` for a list of integers. */
  function Total(s: seq<int>): int
  {
    if |s| == 0 then 0 else Total(s[..|s| - 1]) + s[|s| - 1]
  }

  /** `sum(s)` for a list of reals. */
  function Sum(s: seq<real>): real
  {
    if |s| == 0 then 0.0 else Sum(s[..|s| - 1]) + s[|s| - 1]
  }

  /** A sum of non-negative terms is non-negative, and it is zero exactly
      when every term is. */
  lemma {:induction false} SumOfNonNegative(s: seq<real>)
    requires forall i :: 0 <= i < |s| ==> s[i] >= 0.0
    ensures Sum(s) >= 0.0
    ensures Sum(s) == 0.0 <==> forall i :: 0 <= i < |s| ==> s[i] == 0.0
  {
    if |s| > 0 {
      var p := s[..|s| - 1];
      SumOfNonNegative(p);
      if Sum(s) == 0.0 {
        assert forall i :: 0 <= i < |p| ==> p[i] == 0.0;
      }
    }
  }

  /** `n` copies of `c` add up to `n * c`. */
  lemma {:induction false} SumOfConstant(n: nat, c: real)
    ensures Sum(seq(n, _ => c)) == n as real * c
  {
    if n > 0 {
      SumOfConstant(n - 1, c);
      assert seq(n, _ => c)[..n - 1] == seq(n - 1, _ => c);
    }
  }

  /** Adding an element at the end adds it to the sum. */
  lemma TotalAppend(s: seq<int>, x: int)
    ensures Total(s + [x]) == Total(s) + x
  {
    assert (s + [x])[..|s|] == s;
  }

  lemma SumAppend(s: seq<real>, x: real)
    ensures Sum(s + [x]) == Sum(s) + x
  {
    assert (s + [x])[..|s|] == s;
  }

  lemma {:induction false} TotalNonNegative(s: seq<int>)
    requires forall j :: 0 <= j < |s| ==> s[j] >= 0
    ensures Total(s) >= 0
  {
    if |s| > 0 {
      TotalNonNegative(s[..|s| - 1]);
    }
  }
}
