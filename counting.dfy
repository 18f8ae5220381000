/** `ContarFrecuencias`: how many sample values fall in each interval, and
    what the counts add up to over a partition. */
module Counting {
  import opened Dicts
  import opened Sums
  import opened Intervals

  /** The classification rule: `lo <= x < hi`. */
  predicate Contains(v: Bounds, x: real)
  {
    v.lo <= x < v.hi
  }

  /** `len(list(filter(lambda x: lo <= x < hi, xs)))`. */
  function Count(xs: seq<real>, v: Bounds): (c: nat)
    ensures c <= |xs|
  {
    if |xs| == 0 then 0
    else Count(xs[..|xs| - 1], v) + (if Contains(v, xs[|xs| - 1]) then 1 else 0)
  }

  /** The count is the number of positions of `xs` whose value lies in `v`. */
  lemma {:induction false} CountIsPositions(xs: seq<real>, v: Bounds)
    ensures Count(xs, v) == |set i | 0 <= i < |xs| && Contains(v, xs[i])|
  {
    if |xs| > 0 {
      var n := |xs| - 1;
      var p := xs[..n];
      CountIsPositions(p, v);
      var before := set i | 0 <= i < n && Contains(v, p[i]);
      var after := set i | 0 <= i < |xs| && Contains(v, xs[i]);
      if Contains(v, xs[n]) {
        assert after == before + {n};
      } else {
        assert after == before;
      }
    }
  }

  /** Every value of `xs` lies in `v` exactly when all of them are counted. */
  lemma {:induction false} CountAll(xs: seq<real>, v: Bounds)
    ensures Count(xs, v) == |xs| <==> forall i :: 0 <= i < |xs| ==> Contains(v, xs[i])
  {
    if |xs| > 0 {
      var p := xs[..|xs| - 1];
      CountAll(p, v);
      if Count(xs, v) == |xs| {
        assert forall i :: 0 <= i < |p| ==> Contains(v, p[i]);
      }
    }
  }

  /** Filtering distributes over concatenation. */
  lemma {:induction false} CountConcat(a: seq<real>, b: seq<real>, v: Bounds)
    ensures Count(a + b, v) == Count(a, v) + Count(b, v)
  {
    if |b| > 0 {
      CountConcat(a, b[..|b| - 1], v);
      assert (a + b)[..|a + b| - 1] == a + b[..|b| - 1];
    } else {
      assert a + b == a;
    }
  }

  /** The count of the first `n` values, taken index by index. */
  function CountUpTo(xs: seq<real>, n: nat, v: Bounds): nat
    requires n <= |xs|
  {
    if n == 0 then 0 else CountUpTo(xs, n - 1, v) + (if Contains(v, xs[n - 1]) then 1 else 0)
  }

  lemma {:induction false} CountUpToAll(xs: seq<real>, n: nat, v: Bounds)
    requires n <= |xs|
    ensures CountUpTo(xs, n, v) == Count(xs[..n], v)
  {
    if n > 0 {
      CountUpToAll(xs, n - 1, v);
      assert xs[..n][..n - 1] == xs[..n - 1];
    }
  }

  /** What `ContarFrecuencias` returns: the intervals' keys in their order,
      each with its count. */
  function Frequencies(xs: seq<real>, intervals: Dict<Label, Bounds>): (d: Dict<Label, nat>)
    ensures |d| == |intervals|
  {
    seq(|intervals|, i requires 0 <= i < |intervals| =>
      Entry(intervals[i].key, Count(xs, intervals[i].value)))
  }

  /** Starts every interval's counter at 0, then overwrites each counter with
      its interval's count, in the intervals' order. */
  method ContarFrecuencias(xs: seq<real>, intervals: Dict<Label, Bounds>)
    returns (counts: Dict<Label, nat>)
    requires DistinctKeys(intervals)
    ensures counts == Frequencies(xs, intervals)
    ensures Keys(counts) == Keys(intervals)
    ensures forall i :: 0 <= i < |counts| ==> counts[i].value <= |xs|
  {
    var keys := Keys(intervals);
    var zeros: seq<nat> := seq(|keys|, _ => 0);
    counts := FromPairs(keys, zeros);
    FromDistinctPairs(keys, zeros);
    for i := 0 to |intervals|
      invariant |counts| == |intervals|
      invariant forall j :: 0 <= j < i ==>
        counts[j] == Entry(intervals[j].key, Count(xs, intervals[j].value))
      invariant forall j :: i <= j < |intervals| ==> counts[j] == Entry(intervals[j].key, 0)
    {
      var k, v := intervals[i].key, intervals[i].value;
      assert IndexOf(counts, k) == i;
      counts := Put(counts, k, Count(xs, v));
    }
  }

  /** The number of intervals of `vs` that contain `x`. */
  function Hits(x: real, vs: seq<Bounds>): nat
  {
    if |vs| == 0 then 0
    else Hits(x, vs[..|vs| - 1]) + (if Contains(vs[|vs| - 1], x) then 1 else 0)
  }

  /** Each value counted once per interval that contains it. */
  function HitTotal(xs: seq<real>, vs: seq<Bounds>): nat
  {
    if |xs| == 0 then 0 else HitTotal(xs[..|xs| - 1], vs) + Hits(xs[|xs| - 1], vs)
  }

  /** The counts, one per interval, in interval order. */
  function CountsOf(xs: seq<real>, vs: seq<Bounds>): (cs: seq<int>)
    ensures |cs| == |vs|
  {
    seq(|vs|, i requires 0 <= i < |vs| => Count(xs, vs[i]))
  }

  lemma {:induction false} HitTotalOfNoIntervals(xs: seq<real>)
    ensures HitTotal(xs, []) == 0
  {
    if |xs| > 0 {
      HitTotalOfNoIntervals(xs[..|xs| - 1]);
    }
  }

  lemma {:induction false} HitTotalAppend(xs: seq<real>, vs: seq<Bounds>, v: Bounds)
    ensures HitTotal(xs, vs + [v]) == HitTotal(xs, vs) + Count(xs, v)
  {
    if |xs| > 0 {
      HitTotalAppend(xs[..|xs| - 1], vs, v);
      assert (vs + [v])[..|vs|] == vs;
    }
  }

  /** Adding up the counts of all intervals counts every value once per
      interval that contains it. */
  lemma {:induction false} TotalIsHitTotal(xs: seq<real>, vs: seq<Bounds>)
    ensures Total(CountsOf(xs, vs)) == HitTotal(xs, vs)
  {
    if |vs| > 0 {
      var n := |vs| - 1;
      assert vs[..n] + [vs[n]] == vs;
      TotalIsHitTotal(xs, vs[..n]);
      assert CountsOf(xs, vs) == CountsOf(xs, vs[..n]) + [Count(xs, vs[n])];
      TotalAppend(CountsOf(xs, vs[..n]), Count(xs, vs[n]));
      HitTotalAppend(xs, vs[..n], vs[n]);
    } else {
      HitTotalOfNoIntervals(xs);
    }
  }

  /** The consecutive intervals of increasing boundaries partition
      `[b[0], b[last])`: a value inside lies in exactly one interval, a value
      outside (the last boundary included) in none. */
  lemma {:induction false} HitsOfPartition(x: real, b: seq<real>)
    requires |b| >= 1 && StrictlyIncreasing(b)
    ensures Hits(x, Consecutive(b)) == if b[0] <= x < b[|b| - 1] then 1 else 0
  {
    if |b| > 1 {
      var p := b[..|b| - 1];
      HitsOfPartition(x, p);
      assert Consecutive(b)[..|p| - 1] == Consecutive(p);
    }
  }

  lemma {:induction false} HitTotalOfPartition(xs: seq<real>, b: seq<real>)
    requires |b| >= 1 && StrictlyIncreasing(b)
    ensures HitTotal(xs, Consecutive(b)) == Count(xs, Bounds(b[0], b[|b| - 1]))
  {
    if |xs| > 0 {
      HitTotalOfPartition(xs[..|xs| - 1], b);
      HitsOfPartition(xs[|xs| - 1], b);
    }
  }

  /** Over the intervals built from increasing boundaries the counts add up
      to the number of values in `[b[0], b[last])`: never more than the
      sample, and the whole sample exactly when every value lies inside.
      Values outside, the last boundary among them, are dropped silently. */
  lemma CountsOfPartition(xs: seq<real>, b: seq<real>)
    requires |b| >= 1 && StrictlyIncreasing(b)
    ensures Total(Values(Frequencies(xs, CrearIntervalos(b)))) == Count(xs, Bounds(b[0], b[|b| - 1]))
    ensures Total(Values(Frequencies(xs, CrearIntervalos(b)))) <= |xs|
    ensures Total(Values(Frequencies(xs, CrearIntervalos(b)))) == |xs| <==>
      forall i :: 0 <= i < |xs| ==> b[0] <= xs[i] < b[|b| - 1]
  {
    IntervalsOfIncreasing(b);
    assert Values(Frequencies(xs, CrearIntervalos(b))) == CountsOf(xs, Consecutive(b));
    TotalIsHitTotal(xs, Consecutive(b));
    HitTotalOfPartition(xs, b);
    CountAll(xs, Bounds(b[0], b[|b| - 1]));
  }

  /** A value equal to an inner boundary is counted in the interval that
      starts there, not in the one that ends there; the first boundary falls
      in the first interval and the last boundary in none. */
  lemma BoundaryValues(b: seq<real>, i: nat)
    requires StrictlyIncreasing(b) && 0 < i < |b|
    ensures !Contains(Bounds(b[i - 1], b[i]), b[i])
    ensures i < |b| - 1 ==> Contains(Bounds(b[i], b[i + 1]), b[i])
    ensures Hits(b[0], Consecutive(b)) == 1
    ensures Hits(b[|b| - 1], Consecutive(b)) == 0
  {
    HitsOfPartition(b[0], b);
    HitsOfPartition(b[|b| - 1], b);
  }
}
