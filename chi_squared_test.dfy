/** `PruebaChiCuadrado`: the goodness-of-fit test of a sample against the
    uniform distribution on `[0, 1)`, from boundaries to decision. */
module ChiSquaredTest {
  import opened Rounding
  import opened Outcomes
  import opened Dicts
  import opened Sums
  import opened Intervals
  import opened Counting
  import opened Statistic

  /** `ResultadosChi2`: whether the null hypothesis (the sample is uniform)
      stands or is rejected. */
  datatype Decision = H0NoRechazable | H0Rechazada

  /** The five values `PruebaChiCuadrado` returns, in order. */
  datatype TestOutcome = TestOutcome(
    decision: Decision,
    perInterval: Dict<Label, real>,
    degreesOfFreedom: int,
    counts: Dict<Label, nat>,
    statistic: real)

  /** The critical value: the quantile of the chi-squared distribution at the
      confidence level `1 - alpha` with `df` degrees of freedom. The quantile
      function is a parameter. */
  function CriticalValue(quantile: (real, int) -> real, alpha: real, df: int): real
  {
    quantile(1.0 - alpha, df)
  }

  /** The null hypothesis stands exactly when the statistic is strictly below
      the critical value; a tie rejects it. */
  function Decide(statistic: real, critical: real): (d: Decision)
    ensures d == H0NoRechazable <==> statistic < critical
    ensures d == H0Rechazada <==> statistic >= critical
  {
    if statistic < critical then H0NoRechazable else H0Rechazada
  }

  /** What `PruebaChiCuadrado(xs, k, alpha)` returns: build the boundaries
      and the intervals, count the sample, accumulate the statistic with
      defaulted expectations, pair each interval's label with its
      contribution, and decide; or the division by zero raised on the way. */
  function ChiSquaredTest(xs: seq<real>, k: int, alpha: real, quantile: (real, int) -> real)
    : Result<TestOutcome>
  {
    var bs := Boundaries(k);
    if bs.Err? then Err(bs.error)
    else
      var counts := Frequencies(xs, CrearIntervalos(bs.value));
      var acc := Accumulated(Values(counts), Uniform);
      if acc.Err? then Err(acc.error)
      else
        var s := acc.value;
        Ok(TestOutcome(
          Decide(s.statistic, CriticalValue(quantile, alpha, s.degreesOfFreedom)),
          FromPairs(Keys(counts), s.contributions),
          s.degreesOfFreedom,
          counts,
          s.statistic))
  }

  /** Runs the steps in the source's order. */
  method PruebaChiCuadrado(xs: seq<real>, k: int, alpha: real, quantile: (real, int) -> real)
    returns (r: Result<TestOutcome>)
    ensures r == ChiSquaredTest(xs, k, alpha, quantile)
    ensures r.Ok? ==> (r.value.decision == H0NoRechazable <==>
      r.value.statistic < quantile(1.0 - alpha, r.value.degreesOfFreedom))
  {
    var limits := CrearLimitesIntervalos(k);
    if limits.Err? {
      return Err(limits.error);
    }
    var intervals := CrearIntervalos(limits.value);
    var counts := ContarFrecuencias(xs, intervals);
    var acc := EstadisticoChi2Acumulado(Values(counts), Uniform);
    if acc.Err? {
      return Err(acc.error);
    }
    var s := acc.value;
    var critical := quantile(1.0 - alpha, s.degreesOfFreedom);
    var perInterval := FromPairs(Keys(counts), s.contributions);
    var decision := Decide(s.statistic, critical);
    r := Ok(TestOutcome(decision, perInterval, s.degreesOfFreedom, counts, s.statistic));
  }

  /** Counting keeps the intervals' keys, so they stay distinct. */
  lemma FrequenciesKeepKeys(xs: seq<real>, intervals: Dict<Label, Bounds>)
    requires DistinctKeys(intervals)
    ensures Keys(Frequencies(xs, intervals)) == Keys(intervals)
    ensures DistinctKeys(Frequencies(xs, intervals))
  {
    assert Keys(Frequencies(xs, intervals)) == Keys(intervals);
  }

  /** The per-interval map holds the counts' labels, in the counts' order,
      each with its interval's rounded contribution. */
  lemma PerIntervalPairs(xs: seq<real>, k: int, alpha: real, quantile: (real, int) -> real)
    ensures var r := ChiSquaredTest(xs, k, alpha, quantile);
      r.Ok? ==> var t := r.value;
      |t.perInterval| == |t.counts| &&
      Keys(t.perInterval) == Keys(t.counts) &&
      Values(t.perInterval) == Accumulated(Values(t.counts), Uniform).value.contributions
  {
    if ChiSquaredTest(xs, k, alpha, quantile).Ok? {
      var b := Boundaries(k).value;
      var counts := Frequencies(xs, CrearIntervalos(b));
      var s := Accumulated(Values(counts), Uniform).value;
      FrequenciesKeepKeys(xs, CrearIntervalos(b));
      FromDistinctPairs(Keys(counts), s.contributions);
    }
  }

  /** With defaulted expectations every reported value is non-negative: the
      statistic and each interval's contribution. */
  lemma StatisticNonNegative(xs: seq<real>, k: int, alpha: real, quantile: (real, int) -> real)
    ensures var r := ChiSquaredTest(xs, k, alpha, quantile);
      r.Ok? ==> var t := r.value;
      t.statistic >= 0.0 && forall i :: 0 <= i < |t.perInterval| ==> t.perInterval[i].value >= 0.0
  {
    if ChiSquaredTest(xs, k, alpha, quantile).Ok? {
      var b := Boundaries(k).value;
      var counts := Frequencies(xs, CrearIntervalos(b));
      var obs: seq<int> := Values(counts);
      UniformFailsIff(obs);
      TotalNonNegative(obs);
      MeanPositive(obs);
      StatisticOfPositiveExpected(obs, Uniform);
      PerIntervalPairs(xs, k, alpha, quantile);
    }
  }

  lemma MeanPositive(obs: seq<int>)
    requires |obs| > 0 && Total(obs) > 0
    ensures forall i :: 0 <= i < |obs| ==> ExpectedFor(obs, Uniform)[i] > 0.0
  {
    assert Mean(obs) * |obs| as real == Total(obs) as real;
  }

  /** No interval count, or zero: the test cannot be run. A non-positive
      number of intervals always ends in a division by zero. */
  lemma NoIntervals(xs: seq<real>, k: int, alpha: real, quantile: (real, int) -> real)
    requires k <= 0
    ensures ChiSquaredTest(xs, k, alpha, quantile) == Err(DivisionByZero)
  {
    if k < 0 {
      assert CrearIntervalos([]) == [];
      UniformFailsIff([]);
    }
  }

  /** For 1 to 1000 intervals the counts are the `k` intervals' counts in
      order, the degrees of freedom are `k - 1`, the counts add up to the
      number of values in `[0, b[k])`, and the test fails exactly when no
      value lies in that range. */
  lemma FewIntervals(xs: seq<real>, k: int, alpha: real, quantile: (real, int) -> real)
    requires 1 <= k <= 1000
    ensures var b := Boundaries(k).value;
      var inRange := Count(xs, Bounds(0.0, b[k]));
      var r := ChiSquaredTest(xs, k, alpha, quantile);
      (r.Err? <==> inRange == 0) &&
      (r.Ok? ==>
        r.value.degreesOfFreedom == k - 1 &&
        |r.value.counts| == k &&
        Total(Values(r.value.counts)) == inRange &&
        forall i :: 0 <= i < k ==>
          r.value.counts[i] == Entry(Label(b[i], b[i + 1]), Count(xs, Bounds(b[i], b[i + 1]))))
  {
    var b := Boundaries(k).value;
    FewIntervalsIncrease(k);
    IntervalsOfIncreasing(b);
    CountsOfPartition(xs, b);
    var counts := Frequencies(xs, CrearIntervalos(b));
    UniformFailsIff(Values(counts));
  }

  /** From 2500 intervals on every boundary is 0.0, the intervals collapse to
      the single empty interval `[0.0, 0.0)`, nothing is counted and the
      statistic divides by zero, whatever the sample. */
  lemma ManyIntervals(xs: seq<real>, k: int, alpha: real, quantile: (real, int) -> real)
    requires k >= 2500
    ensures ChiSquaredTest(xs, k, alpha, quantile) == Err(DivisionByZero)
  {
    var b := Boundaries(k).value;
    ManyIntervalsCollapse(k);
    IntervalsOfConstant(b, 0.0);
    var counts := Frequencies(xs, CrearIntervalos(b));
    assert Count(xs, Bounds(0.0, 0.0)) == 0 by {
      CountAll(xs, Bounds(0.0, 0.0));
      CountIsPositions(xs, Bounds(0.0, 0.0));
      assert (set i | 0 <= i < |xs| && Contains(Bounds(0.0, 0.0), xs[i])) == {};
    }
    assert Values(counts) == [0];
    UniformFailsIff([0]);
  }

  /** A value of the unit interval above the last boundary is counted
      nowhere: with three intervals the sample `[0.9995]` leaves every count
      at zero and the test divides by zero. */
  lemma TopValueDropped(alpha: real, quantile: (real, int) -> real)
    ensures ChiSquaredTest([0.9995], 3, alpha, quantile) == Err(DivisionByZero)
  {
    ThreeBoundaries();
    FewIntervals([0.9995], 3, alpha, quantile);
    assert Count([0.9995], Bounds(0.0, 0.999)) == 0;
  }

  /** The classroom sample: thirty values drawn from `[0, 1)`. */
  const Sample: seq<real> := First + Second + Third
  const First: seq<real> := [0.15, 0.22, 0.41, 0.65, 0.84, 0.81, 0.62, 0.45, 0.32, 0.07]
  const Second: seq<real> := [0.11, 0.29, 0.58, 0.73, 0.93, 0.97, 0.79, 0.55, 0.35, 0.09]
  const Third: seq<real> := [0.99, 0.51, 0.35, 0.02, 0.19, 0.24, 0.98, 0.10, 0.31, 0.17]

  /** The sample's count in one interval, a ten-value block at a time. */
  lemma SampleCount(v: Bounds)
    ensures Count(Sample, v) == CountUpTo(First, 10, v) + CountUpTo(Second, 10, v) + CountUpTo(Third, 10, v)
  {
    CountConcat(First + Second, Third, v);
    CountConcat(First, Second, v);
    CountUpToAll(First, 10, v);
    CountUpToAll(Second, 10, v);
    CountUpToAll(Third, 10, v);
    assert First[..10] == First && Second[..10] == Second && Third[..10] == Third;
  }

  /** Five intervals of width 0.2 have the boundaries 0.0, 0.2, ..., 1.0. */
  lemma FiveBoundaries()
    ensures Boundaries(5) == Ok([0.0, 0.2, 0.4, 0.6, 0.8, 1.0])
  {
    assert Scale(4) == 10000.0 && Scale(3) == 1000.0;
    assert Width(5) == 0.2 by {
      assert Shifted(1.0 / 5.0, 4) == 2000.0;
    }
    assert Round(0.2, 3) == 0.2 by { assert Shifted(0.2, 3) == 200.0; }
    assert Round(0.4, 3) == 0.4 by { assert Shifted(0.4, 3) == 400.0; }
    assert Round(0.6, 3) == 0.6 by { assert Shifted(0.6, 3) == 600.0; }
    assert Round(0.8, 3) == 0.8 by { assert Shifted(0.8, 3) == 800.0; }
    assert Round(1.0, 3) == 1.0 by { assert Shifted(1.0, 3) == 1000.0; }
    var w := 0.2;
    assert Limits(1, w) == [0.0, 0.2];
    assert Limits(2, w) == [0.0, 0.2, 0.4];
    assert Limits(3, w) == [0.0, 0.2, 0.4, 0.6];
    assert Limits(4, w) == [0.0, 0.2, 0.4, 0.6, 0.8];
    assert Limits(5, w) == [0.0, 0.2, 0.4, 0.6, 0.8, 1.0];
  }

  lemma FirstCounts()
    ensures CountUpTo(First, 10, Bounds(0.0, 0.2)) == 2
    ensures CountUpTo(First, 10, Bounds(0.2, 0.4)) == 2
    ensures CountUpTo(First, 10, Bounds(0.4, 0.6)) == 2
    ensures CountUpTo(First, 10, Bounds(0.6, 0.8)) == 2
    ensures CountUpTo(First, 10, Bounds(0.8, 1.0)) == 2
  {
  }

  lemma SecondCounts()
    ensures CountUpTo(Second, 10, Bounds(0.0, 0.2)) == 2
    ensures CountUpTo(Second, 10, Bounds(0.2, 0.4)) == 2
    ensures CountUpTo(Second, 10, Bounds(0.4, 0.6)) == 2
    ensures CountUpTo(Second, 10, Bounds(0.6, 0.8)) == 2
    ensures CountUpTo(Second, 10, Bounds(0.8, 1.0)) == 2
  {
  }

  lemma ThirdCounts()
    ensures CountUpTo(Third, 10, Bounds(0.0, 0.2)) == 4
    ensures CountUpTo(Third, 10, Bounds(0.2, 0.4)) == 3
    ensures CountUpTo(Third, 10, Bounds(0.4, 0.6)) == 1
    ensures CountUpTo(Third, 10, Bounds(0.6, 0.8)) == 0
    ensures CountUpTo(Third, 10, Bounds(0.8, 1.0)) == 2
  {
  }

  /** The sample's counts in the five intervals of width 0.2. */
  lemma SampleCounts()
    ensures Count(Sample, Bounds(0.0, 0.2)) == 8
    ensures Count(Sample, Bounds(0.2, 0.4)) == 7
    ensures Count(Sample, Bounds(0.4, 0.6)) == 5
    ensures Count(Sample, Bounds(0.6, 0.8)) == 4
    ensures Count(Sample, Bounds(0.8, 1.0)) == 6
  {
    FirstCounts();
    SecondCounts();
    ThirdCounts();
    SampleCount(Bounds(0.0, 0.2));
    SampleCount(Bounds(0.2, 0.4));
    SampleCount(Bounds(0.4, 0.6));
    SampleCount(Bounds(0.6, 0.8));
    SampleCount(Bounds(0.8, 1.0));
  }

  /** The counts `ContarFrecuencias` reports for the sample and five intervals. */
  lemma ClassroomCounts()
    ensures Boundaries(5) == Ok([0.0, 0.2, 0.4, 0.6, 0.8, 1.0])
    ensures Frequencies(Sample, CrearIntervalos([0.0, 0.2, 0.4, 0.6, 0.8, 1.0])) ==
      [Entry(Label(0.0, 0.2), 8), Entry(Label(0.2, 0.4), 7), Entry(Label(0.4, 0.6), 5),
       Entry(Label(0.6, 0.8), 4), Entry(Label(0.8, 1.0), 6)]
  {
    var b := [0.0, 0.2, 0.4, 0.6, 0.8, 1.0];
    FiveBoundaries();
    FewIntervalsIncrease(5);
    IntervalsOfIncreasing(b);
    SampleCounts();
  }

  /** The classroom run: with five intervals the sample counts 8, 7, 5, 4
      and 6, exactly the textbook frequencies, so there are 4 degrees of
      freedom and the statistic is 1.67; with the median of the chi-squared
      distribution with 4 degrees of freedom above 1.67 (it is about 3.36)
      the null hypothesis stands at `alpha = 0.5`. */
  lemma ClassroomRun(quantile: (real, int) -> real)
    ensures ChiSquaredTest(Sample, 5, 0.5, quantile) == Ok(TestOutcome(
      Decide(1.67, quantile(0.5, 4)),
      [Entry(Label(0.0, 0.2), 0.67), Entry(Label(0.2, 0.4), 0.17), Entry(Label(0.4, 0.6), 0.17),
       Entry(Label(0.6, 0.8), 0.67), Entry(Label(0.8, 1.0), 0.0)],
      4,
      [Entry(Label(0.0, 0.2), 8), Entry(Label(0.2, 0.4), 7), Entry(Label(0.4, 0.6), 5),
       Entry(Label(0.6, 0.8), 4), Entry(Label(0.8, 1.0), 6)],
      1.67))
    ensures quantile(0.5, 4) > 1.67 ==>
      ChiSquaredTest(Sample, 5, 0.5, quantile).value.decision == H0NoRechazable
  {
    var b := [0.0, 0.2, 0.4, 0.6, 0.8, 1.0];
    var counts := [Entry(Label(0.0, 0.2), 8), Entry(Label(0.2, 0.4), 7), Entry(Label(0.4, 0.6), 5),
       Entry(Label(0.6, 0.8), 4), Entry(Label(0.8, 1.0), 6)];
    var contributions := [0.67, 0.17, 0.17, 0.67, 0.0];
    ClassroomCounts();
    assert Values(counts) == [8, 7, 5, 4, 6];
    TextbookExample();
    ClassroomPerInterval();
    assert Keys(counts) == [Label(0.0, 0.2), Label(0.2, 0.4), Label(0.4, 0.6), Label(0.6, 0.8), Label(0.8, 1.0)];
    TestSteps(Sample, 5, 0.5, quantile, b, counts, Summary(4, 1.67, contributions));
    assert 1.0 - 0.5 == 0.5;
  }

  lemma TestSteps(xs: seq<real>, k: int, alpha: real, quantile: (real, int) -> real,
                  b: seq<real>, counts: Dict<Label, nat>, s: Summary)
    ensures (Boundaries(k) == Ok(b) && Frequencies(xs, CrearIntervalos(b)) == counts &&
             Accumulated(Values(counts), Uniform) == Ok(s)) ==>
      ChiSquaredTest(xs, k, alpha, quantile) == Ok(TestOutcome(
      Decide(s.statistic, quantile(1.0 - alpha, s.degreesOfFreedom)),
      FromPairs(Keys(counts), s.contributions), s.degreesOfFreedom, counts, s.statistic))
  {
  }

  lemma ClassroomPerInterval()
    ensures FromPairs([Label(0.0, 0.2), Label(0.2, 0.4), Label(0.4, 0.6), Label(0.6, 0.8), Label(0.8, 1.0)],
      [0.67, 0.17, 0.17, 0.67, 0.0]) ==
      [Entry(Label(0.0, 0.2), 0.67), Entry(Label(0.2, 0.4), 0.17), Entry(Label(0.4, 0.6), 0.17),
       Entry(Label(0.6, 0.8), 0.67), Entry(Label(0.8, 1.0), 0.0)]
  {
    var ks := [Label(0.0, 0.2), Label(0.2, 0.4), Label(0.4, 0.6), Label(0.6, 0.8), Label(0.8, 1.0)];
    assert forall i, j :: 0 <= i < j < |ks| ==> ks[i].lo < ks[j].lo;
    FromDistinctPairs(ks, [0.67, 0.17, 0.17, 0.67, 0.0]);
  }
}
