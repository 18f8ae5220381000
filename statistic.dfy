/** The Pearson statistic: one interval's term `(o - e)^2 / e`, and the
    accumulation over all intervals with its degrees of freedom. */
module Statistic {
  import opened Rounding
  import opened Outcomes
  import opened Sums

  /** `d ** 2`: never negative, and zero only for `d == 0`. */
  function Square(d: real): (s: real)
    ensures s >= 0.0
    ensures s == 0.0 <==> d == 0.0
  {
    if d != 0.0 then
      assert (d * d) / d == d;
      d * d
    else 0.0
  }

  /** `EstadisticoChi2(o, e)`: `((o - e) ** 2) / e`, which divides by `e`. */
  function EstadisticoChi2(o: real, e: real): (r: Result<real>)
    ensures r.Err? <==> e == 0.0
    ensures r.Ok? ==> r.value * e == Square(o - e)
    ensures r.Ok? && e > 0.0 ==> r.value >= 0.0 && (r.value == 0.0 <==> o == e)
  {
    if e == 0.0 then Err(DivisionByZero)
    else
      var q := Square(o - e) / e;
      if e > 0.0 then QuotientSign(Square(o - e), e); Ok(q) else Ok(q)
  }

  lemma QuotientSign(p: real, e: real)
    requires p >= 0.0 && e > 0.0
    ensures p / e >= 0.0 && (p / e == 0.0 <==> p == 0.0)
  {
    assert (p / e) * e == p;
  }

  /** Expected frequencies: given explicitly, or left out (`frec_esp=None`)
      and then all equal to the mean observed count. */
  datatype Expected = Uniform | Explicit(values: seq<real>)

  /** The source indexes the explicit list at every observed position, so it
      must be at least as long as the observed list. */
  predicate Admissible(obs: seq<int>, esp: Expected)
  {
    esp.Explicit? ==> |esp.values| >= |obs|
  }

  /** `sum(frec_obs) / len(frec_obs)`. */
  function Mean(obs: seq<int>): real
    requires |obs| > 0
  {
    Total(obs) as real / |obs| as real
  }

  /** The expected frequency used for every interval. */
  function ExpectedFor(obs: seq<int>, esp: Expected): (e: seq<real>)
    requires Admissible(obs, esp) && (esp.Uniform? ==> |obs| > 0)
    ensures |e| >= |obs|
  {
    match esp
    case Uniform => seq(|obs|, _ => Mean(obs))
    case Explicit(values) => values
  }

  /** Every expected frequency the loop divides by is non-zero. */
  predicate NonZeroAt(e: seq<real>, n: nat)
  {
    n <= |e| && forall i :: 0 <= i < n ==> e[i] != 0.0
  }

  /** The unrounded terms, one per observed frequency, in interval order. */
  function Terms(obs: seq<int>, e: seq<real>): (t: seq<real>)
    requires NonZeroAt(e, |obs|)
    ensures |t| == |obs|
  {
    seq(|obs|, i requires 0 <= i < |obs| => EstadisticoChi2(obs[i] as real, e[i]).value)
  }

  /** The triple `EstadisticoChi2Acumulado` returns. */
  datatype Summary = Summary(degreesOfFreedom: int, statistic: real, contributions: seq<real>)

  /** What `EstadisticoChi2Acumulado(obs, esp)` returns: the degrees of
      freedom `len(obs) - 1`, the sum of the terms rounded to 2 digits, and
      each term rounded to 2 digits; or the division by zero it raises. */
  function Accumulated(obs: seq<int>, esp: Expected): (r: Result<Summary>)
    requires Admissible(obs, esp)
    ensures r.Ok? ==> r.value.degreesOfFreedom == |obs| - 1 && |r.value.contributions| == |obs|
  {
    if esp.Uniform? && |obs| == 0 then Err(DivisionByZero)
    else
      var e := ExpectedFor(obs, esp);
      if !NonZeroAt(e, |obs|) then Err(DivisionByZero)
      else
        var t := Terms(obs, e);
        Ok(Summary(|obs| - 1, Round(Sum(t), 2), seq(|t|, i requires 0 <= i < |t| => Round(t[i], 2))))
  }

  /** Adds up the terms in interval order, appending each rounded term to the
      list of contributions. */
  method EstadisticoChi2Acumulado(obs: seq<int>, esp: Expected) returns (r: Result<Summary>)
    requires Admissible(obs, esp)
    ensures r == Accumulated(obs, esp)
    ensures r.Ok? ==> r.value.degreesOfFreedom == |obs| - 1 && |r.value.contributions| == |obs|
  {
    var values: seq<real> := [];
    var acc := 0.0;
    var df := |obs| - 1;
    var e: seq<real>;
    if esp.Uniform? {
      if |obs| == 0 {
        return Err(DivisionByZero);
      }
      var val := Mean(obs);
      e := seq(|obs|, _ => val);
    } else {
      e := esp.values;
    }
    assert e == ExpectedFor(obs, esp);
    for i := 0 to |obs|
      invariant NonZeroAt(e, i)
      invariant acc == Sum(Terms(obs[..i], e))
      invariant values == seq(i, j requires 0 <= j < i => Round(Terms(obs[..i], e)[j], 2))
    {
      var c := EstadisticoChi2(obs[i] as real, e[i]);
      if c.Err? {
        return Err(c.error);
      }
      assert Terms(obs[..i + 1], e)[..i] == Terms(obs[..i], e);
      acc := acc + c.value;
      values := values + [Round(c.value, 2)];
    }
    assert obs[..|obs|] == obs;
    r := Ok(Summary(df, Round(acc, 2), values));
  }

  /** The defaulted expected frequencies add up to the observed total. */
  lemma UniformExpectedSum(obs: seq<int>)
    requires |obs| > 0
    ensures Sum(ExpectedFor(obs, Uniform)) == Total(obs) as real
  {
    SumOfConstant(|obs|, Mean(obs));
    assert ExpectedFor(obs, Uniform) == seq(|obs|, _ => Mean(obs));
  }

  /** Passing the defaults explicitly gives the same result as leaving the
      expected frequencies out. */
  lemma ExplicitDefaultsAgree(obs: seq<int>)
    requires |obs| > 0
    ensures Accumulated(obs, Explicit(ExpectedFor(obs, Uniform))) == Accumulated(obs, Uniform)
  {
  }

  /** With defaulted expectations the test fails exactly when the observed
      total is zero: then every expected frequency is zero. */
  lemma UniformFailsIff(obs: seq<int>)
    ensures Accumulated(obs, Uniform).Err? <==> |obs| == 0 || Total(obs) == 0
  {
    if |obs| > 0 {
      var e := ExpectedFor(obs, Uniform);
      assert e[0] == Mean(obs);
      MeanZero(obs);
      assert NonZeroAt(e, |obs|) <==> Mean(obs) != 0.0;
    }
  }

  lemma MeanZero(obs: seq<int>)
    requires |obs| > 0
    ensures Mean(obs) == 0.0 <==> Total(obs) == 0
  {
    assert Mean(obs) * |obs| as real == Total(obs) as real;
  }

  /** With positive expected frequencies the unrounded statistic is
      non-negative and is zero exactly when every observed frequency equals
      its expected one; the reported statistic and contributions are then
      non-negative too. */
  lemma StatisticOfPositiveExpected(obs: seq<int>, esp: Expected)
    requires Admissible(obs, esp) && (esp.Uniform? ==> |obs| > 0)
    requires forall i :: 0 <= i < |obs| ==> ExpectedFor(obs, esp)[i] > 0.0
    ensures Accumulated(obs, esp).Ok?
    ensures Sum(Terms(obs, ExpectedFor(obs, esp))) >= 0.0
    ensures Sum(Terms(obs, ExpectedFor(obs, esp))) == 0.0 <==>
      forall i :: 0 <= i < |obs| ==> obs[i] as real == ExpectedFor(obs, esp)[i]
    ensures Accumulated(obs, esp).value.statistic >= 0.0
    ensures forall i :: 0 <= i < |obs| ==> Accumulated(obs, esp).value.contributions[i] >= 0.0
  {
    var e := ExpectedFor(obs, esp);
    var t := Terms(obs, e);
    assert forall i :: 0 <= i < |obs| ==> (t[i] == 0.0 <==> obs[i] as real == e[i]);
    SumOfNonNegative(t);
    RoundNonNegative(Sum(t), 2);
    forall i | 0 <= i < |obs| ensures Round(t[i], 2) >= 0.0 {
      RoundNonNegative(t[i], 2);
    }
  }

  /** The reported statistic is rounded once, the contributions one by one, so
      the statistic and the sum of the contributions differ by at most half a
      hundredth per interval plus half a hundredth. */
  lemma StatisticNearContributions(obs: seq<int>, esp: Expected)
    requires Admissible(obs, esp) && Accumulated(obs, esp).Ok?
    ensures var s := Accumulated(obs, esp).value;
      -0.005 * (|obs| + 1) as real <= s.statistic - Sum(s.contributions) <= 0.005 * (|obs| + 1) as real
  {
    var e := ExpectedFor(obs, esp);
    var t := Terms(obs, e);
    var s := Accumulated(obs, esp).value;
    RoundError(Sum(t), 2);
    assert Scale(2) == 100.0;
    RoundedSumNear(t);
  }

  /** Rounding each term to 2 digits moves the sum by at most half a
      hundredth per term. */
  lemma {:induction false} RoundedSumNear(t: seq<real>)
    ensures var rs := seq(|t|, i requires 0 <= i < |t| => Round(t[i], 2));
      -0.005 * |t| as real <= Sum(rs) - Sum(t) <= 0.005 * |t| as real
  {
    if |t| > 0 {
      var n := |t| - 1;
      RoundedSumNear(t[..n]);
      var rs := seq(|t|, i requires 0 <= i < |t| => Round(t[i], 2));
      assert rs[..n] == seq(n, i requires 0 <= i < n => Round(t[..n][i], 2));
      RoundError(t[n], 2);
      assert Scale(2) == 100.0;
    }
  }

  /** The textbook vector: observed `[8, 7, 5, 4, 6]` with defaulted
      expectations (6.0 each) gives 4 degrees of freedom, statistic 1.67 and
      contributions 0.67, 0.17, 0.17, 0.67 and 0.0. */
  lemma TextbookExample()
    ensures Accumulated([8, 7, 5, 4, 6], Uniform) ==
      Ok(Summary(4, 1.67, [0.67, 0.17, 0.17, 0.67, 0.0]))
  {
    var obs := [8, 7, 5, 4, 6];
    var t := [4.0 / 6.0, 1.0 / 6.0, 1.0 / 6.0, 4.0 / 6.0, 0.0];
    TextbookTerms();
    assert Sum(t) == 10.0 / 6.0 by {
      var a, b := 4.0 / 6.0, 1.0 / 6.0;
      SumAppend([], a);
      assert [] + [a] == [a];
      SumAppend([a], b);
      assert [a] + [b] == [a, b];
      SumAppend([a, b], b);
      assert [a, b] + [b] == [a, b, b];
      SumAppend([a, b, b], a);
      assert [a, b, b] + [a] == [a, b, b, a];
      SumAppend([a, b, b, a], 0.0);
      assert [a, b, b, a] + [0.0] == t;
    }
    assert Round(10.0 / 6.0, 2) == 1.67;
    assert Round(4.0 / 6.0, 2) == 0.67;
    assert Round(1.0 / 6.0, 2) == 0.17;
    assert Round(0.0, 2) == 0.0;
    assert seq(5, i requires 0 <= i < 5 => Round(t[i], 2)) == [0.67, 0.17, 0.17, 0.67, 0.0];
  }

  lemma TextbookTerms()
    ensures ExpectedFor([8, 7, 5, 4, 6], Uniform) == [6.0, 6.0, 6.0, 6.0, 6.0]
    ensures Terms([8, 7, 5, 4, 6], [6.0, 6.0, 6.0, 6.0, 6.0]) ==
      [4.0 / 6.0, 1.0 / 6.0, 1.0 / 6.0, 4.0 / 6.0, 0.0]
  {
    var obs := [8, 7, 5, 4, 6];
    assert Total(obs) == 30 by {
      TotalAppend([], 8);
      assert [] + [8] == [8];
      TotalAppend([8], 7);
      assert [8] + [7] == [8, 7];
      TotalAppend([8, 7], 5);
      assert [8, 7] + [5] == [8, 7, 5];
      TotalAppend([8, 7, 5], 4);
      assert [8, 7, 5] + [4] == [8, 7, 5, 4];
      TotalAppend([8, 7, 5, 4], 6);
      assert [8, 7, 5, 4] + [6] == obs;
    }
  }
}
