/** Partition of the unit interval: `CrearLimitesIntervalos` builds the
    boundaries, `CrearIntervalos` pairs them into labelled half-open
    intervals. */
module Intervals {
  import opened Rounding
  import opened Outcomes
  import opened Dicts

  /** The key of an interval: `str(lo) + " - " + str(hi)`. The decimal text
      is not modelled; two labels are equal exactly when their bounds are. */
  datatype Label = Label(lo: real, hi: real)

  /** The value of an interval: the list `[lo, hi]`. */
  datatype Bounds = Bounds(lo: real, hi: real)

  /** `round(1 / k, 4)`, the width added at every step. */
  function Width(k: int): real
    requires k != 0
  {
    Round(1.0 / k as real, 4)
  }

  /** The first `n + 1` cumulative boundaries for step `w`: 0.0, then each
      boundary is the previous one plus `w`, rounded to 3 digits. */
  function Limits(n: nat, w: real): (b: seq<real>)
    ensures |b| == n + 1 && b[0] == 0.0
  {
    if n == 0 then [0.0]
    else
      var p := Limits(n - 1, w);
      p + [Round(p[n - 1] + w, 3)]
  }

  /** What `CrearLimitesIntervalos(k)` returns: division by zero for
      `k == 0`; for negative `k` the list `[0.0] * (k + 1)` is empty and the
      loop does not run. */
  function Boundaries(k: int): Result<seq<real>>
  {
    if k == 0 then Err(DivisionByZero)
    else if k < 0 then Ok([])
    else Ok(Limits(k, Width(k)))
  }

  /** Every boundary after the first is the rounded sum of its predecessor
      and the width. */
  lemma {:induction false} LimitsStep(n: nat, w: real, i: nat)
    requires i < n
    ensures Limits(n, w)[i + 1] == Round(Limits(n, w)[i] + w, 3)
  {
    if i < n - 1 {
      LimitsStep(n - 1, w, i);
    }
  }

  /** Fills a list of `k + 1` zeros in place, one boundary per iteration. */
  method CrearLimitesIntervalos(k: int) returns (r: Result<seq<real>>)
    ensures r == Boundaries(k)
    ensures r.Err? <==> k == 0
    ensures r.Ok? && k < 0 ==> r.value == []
    ensures r.Ok? && k > 0 ==>
      |r.value| == k + 1 && r.value[0] == 0.0 &&
      forall i :: 0 <= i < k ==> r.value[i + 1] == Round(r.value[i] + Width(k), 3)
  {
    if k == 0 {
      return Err(DivisionByZero);
    }
    var w := Width(k);
    if k < 0 {
      return Ok([]);
    }
    var b := new real[k + 1](_ => 0.0);
    var i := 0;
    while i < k
      invariant 0 <= i <= k
      invariant b[..i + 1] == Limits(i, w)
    {
      b[i + 1] := Round(b[i] + w, 3);
      i := i + 1;
      assert b[..i + 1] == b[..i] + [b[i]];
    }
    assert b[..] == b[..k + 1];
    r := Ok(b[..]);
    forall i | 0 <= i < k
      ensures r.value[i + 1] == Round(r.value[i] + w, 3)
    {
      LimitsStep(k, w, i);
    }
  }

  predicate StrictlyIncreasing(b: seq<real>)
  {
    forall i, j :: 0 <= i < j < |b| ==> b[i] < b[j]
  }

  /** With a step larger than half a unit in the third digit every rounded
      step moves up, so the boundaries are strictly increasing. */
  lemma {:induction false} LimitsIncrease(n: nat, w: real)
    requires w > 0.0005
    ensures StrictlyIncreasing(Limits(n, w))
  {
    if n > 0 {
      var p := Limits(n - 1, w);
      LimitsIncrease(n - 1, w);
      RoundError(p[n - 1] + w, 3);
      assert Scale(3) == 1000.0;
    }
  }

  /** With a step below half a unit in the third digit no rounded step moves
      at all: every boundary stays 0.0. */
  lemma {:induction false} LimitsStall(n: nat, w: real)
    requires 0.0 <= w < 0.0005
    ensures forall i :: 0 <= i <= n ==> Limits(n, w)[i] == 0.0
  {
    if n > 0 {
      LimitsStall(n - 1, w);
      assert Scale(3) == 1000.0;
      RoundSmall(w, 3);
    }
  }

  lemma Reciprocal(k: int)
    requires 1 <= k
    ensures 0.0 < 1.0 / k as real <= 1.0
    ensures k <= 1000 ==> 1.0 / k as real >= 0.001
    ensures k >= 2500 ==> 1.0 / k as real <= 0.0004
  {
    var q := 1.0 / k as real;
    assert q * k as real == 1.0;
    if k <= 1000 {
      assert q * 1000.0 >= q * k as real;
    }
  }

  /** For up to 1000 intervals the boundaries strictly increase. */
  lemma FewIntervalsIncrease(k: int)
    requires 1 <= k <= 1000
    ensures Boundaries(k).Ok? && StrictlyIncreasing(Boundaries(k).value)
  {
    Reciprocal(k);
    RoundError(1.0 / k as real, 4);
    assert Scale(4) == 10000.0;
    LimitsIncrease(k, Width(k));
  }

  /** From 2500 intervals on the width rounds to at most 0.0004 and every
      boundary is 0.0. */
  lemma ManyIntervalsCollapse(k: int)
    requires k >= 2500
    ensures Boundaries(k).Ok? && |Boundaries(k).value| == k + 1
    ensures forall i :: 0 <= i <= k ==> Boundaries(k).value[i] == 0.0
  {
    Reciprocal(k);
    RoundError(1.0 / k as real, 4);
    assert Scale(4) == 10000.0;
    assert Width(k) >= 0.0 by { RoundNonNegative(1.0 / k as real, 4); }
    LimitsStall(k, Width(k));
  }

  /** The rounding accumulates: for three intervals the width is 0.3333 and
      the last boundary is 0.999, not 1.0. */
  lemma ThreeBoundaries()
    ensures Boundaries(3) == Ok([0.0, 0.333, 0.666, 0.999])
  {
    assert Scale(4) == 10000.0 && Scale(3) == 1000.0;
    assert Width(3) == 0.3333 by {
      assert Shifted(1.0 / 3.0, 4) == 10000.0 / 3.0;
      assert NearestInt(10000.0 / 3.0) == 3333;
    }
    assert Round(0.3333, 3) == 0.333 by { assert NearestInt(Shifted(0.3333, 3)) == 333; }
    assert Round(0.6663, 3) == 0.666 by { assert NearestInt(Shifted(0.6663, 3)) == 666; }
    assert Round(0.9993, 3) == 0.999 by { assert NearestInt(Shifted(0.9993, 3)) == 999; }
    var w := 0.3333;
    assert Limits(1, w) == [0.0, 0.333];
    assert Limits(2, w) == [0.0, 0.333, 0.666];
    assert Limits(3, w) == [0.0, 0.333, 0.666, 0.999];
  }

  /** The number of intervals for `b`: `len(b) - 1`, or none for `[]`. */
  function IntervalCount(b: seq<real>): nat
  {
    if |b| == 0 then 0 else |b| - 1
  }

  /** The labels, in index order, that the comprehension assigns. */
  function LabelsOf(b: seq<real>): (ls: seq<Label>)
    ensures |ls| == IntervalCount(b)
  {
    seq(IntervalCount(b), i requires 0 <= i < IntervalCount(b) => Label(b[i], b[i + 1]))
  }

  /** The consecutive boundary pairs, in index order. */
  function Consecutive(b: seq<real>): (vs: seq<Bounds>)
    ensures |vs| == IntervalCount(b)
  {
    seq(IntervalCount(b), i requires 0 <= i < IntervalCount(b) => Bounds(b[i], b[i + 1]))
  }

  /** `{str(b[i]) + " - " + str(b[i+1]): [b[i], b[i+1]] for i in range(len(b) - 1)}`. */
  function CrearIntervalos(b: seq<real>): (d: Dict<Label, Bounds>)
    ensures DistinctKeys(d)
    ensures |d| <= IntervalCount(b)
  {
    FromPairs(LabelsOf(b), Consecutive(b))
  }

  /** Increasing boundaries give `len(b) - 1` intervals in index order,
      interval `i` being `[b[i], b[i+1]]`, and each interval's upper bound is
      the next one's lower bound. */
  lemma IntervalsOfIncreasing(b: seq<real>)
    requires StrictlyIncreasing(b)
    ensures |CrearIntervalos(b)| == IntervalCount(b)
    ensures forall i :: 0 <= i < IntervalCount(b) ==>
      CrearIntervalos(b)[i] == Entry(Label(b[i], b[i + 1]), Bounds(b[i], b[i + 1]))
    ensures Values(CrearIntervalos(b)) == Consecutive(b)
    ensures forall i :: 0 <= i < IntervalCount(b) - 1 ==>
      CrearIntervalos(b)[i].value.hi == CrearIntervalos(b)[i + 1].value.lo
  {
    var ls := LabelsOf(b);
    assert forall i, j :: 0 <= i < j < |ls| ==> ls[i] != ls[j] by {
      forall i, j | 0 <= i < j < |ls| ensures ls[i] != ls[j] {
        assert ls[i].lo == b[i] < b[j] == ls[j].lo;
      }
    }
    FromDistinctPairs(ls, Consecutive(b));
  }

  /** Equal boundaries all produce the same label, so the comprehension keeps
      a single entry. */
  lemma IntervalsOfConstant(b: seq<real>, c: real)
    requires |b| >= 2
    requires forall i :: 0 <= i < |b| ==> b[i] == c
    ensures CrearIntervalos(b) == [Entry(Label(c, c), Bounds(c, c))]
  {
    FromRepeatedKey(LabelsOf(b), Consecutive(b), Label(c, c));
  }
}
