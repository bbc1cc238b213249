/**
 The bootstrap interval of the median saving and the verdict drawn from it, over exact reals and for
 every sequence of random draws.
 */
module CampaignStatistics {
  import opened Wrappers
  import opened CampaignPlan

  // ---------------------------------------------------------------------------------------------
  // Sorting and counting
  // ---------------------------------------------------------------------------------------------

  ghost predicate Sorted(s: seq<real>) {
    forall i, j :: 0 <= i < j < |s| ==> s[i] <= s[j]
  }

  function Insert(x: real, s: seq<real>): (r: seq<real>)
    ensures |r| == |s| + 1
    ensures forall y :: y in r <==> y == x || y in s
  {
    if s == [] || x <= s[0] then [x] + s else [s[0]] + Insert(x, s[1..])
  }

  function Sort(s: seq<real>): (r: seq<real>)
    ensures |r| == |s|
    ensures forall y :: y in r <==> y in s
  {
    if s == [] then [] else Insert(s[0], Sort(s[1..]))
  }

  function Count(s: seq<real>, p: real -> bool): (n: nat)
    ensures n <= |s|
  {
    if s == [] then 0 else (if p(s[0]) then 1 else 0) + Count(s[1..], p)
  }

  lemma {:induction false} InsertSorted(x: real, s: seq<real>)
    requires Sorted(s)
    ensures Sorted(Insert(x, s))
  {
    if s != [] && x > s[0] {
      var r := Insert(x, s[1..]);
      InsertSorted(x, s[1..]);
      forall j | 0 <= j < |r|
        ensures s[0] <= r[j]
      {
        assert r[j] in r;
      }
      assert Insert(x, s) == [s[0]] + r;
    }
  }

  lemma {:induction false} SortSorted(s: seq<real>)
    ensures Sorted(Sort(s))
  {
    if s != [] {
      SortSorted(s[1..]);
      InsertSorted(s[0], Sort(s[1..]));
    }
  }

  lemma CountCons(x: real, s: seq<real>, p: real -> bool)
    ensures Count([x] + s, p) == (if p(x) then 1 else 0) + Count(s, p)
  {
    assert ([x] + s)[1..] == s;
  }

  lemma {:induction false} InsertCount(x: real, s: seq<real>, p: real -> bool)
    ensures Count(Insert(x, s), p) == (if p(x) then 1 else 0) + Count(s, p)
  {
    if s == [] || x <= s[0] {
      CountCons(x, s, p);
    } else {
      InsertCount(x, s[1..], p);
      CountCons(s[0], Insert(x, s[1..]), p);
    }
  }

  /** Sorting only rearranges: every count stays. */
  lemma {:induction false} SortCount(s: seq<real>, p: real -> bool)
    ensures Count(Sort(s), p) == Count(s, p)
  {
    if s != [] {
      SortCount(s[1..], p);
      InsertCount(s[0], Sort(s[1..]), p);
    }
  }

  lemma {:induction false} CountMonotone(s: seq<real>, p: real -> bool, q: real -> bool)
    requires forall x :: p(x) ==> q(x)
    ensures Count(s, p) <= Count(s, q)
  {
    if s != [] {
      CountMonotone(s[1..], p, q);
    }
  }

  function Below(y: real): real -> bool { z => z < y }
  function AtMost(y: real): real -> bool { z => z <= y }
  function Above(y: real): real -> bool { z => z > y }

  lemma {:induction false} AboveOrAtMost(s: seq<real>, y: real)
    ensures Count(s, Above(y)) + Count(s, AtMost(y)) == |s|
  {
    if s != [] {
      AboveOrAtMost(s[1..], y);
    }
  }

  lemma {:induction false} NoneBelow(s: seq<real>, y: real)
    requires forall i :: 0 <= i < |s| ==> s[i] >= y
    ensures Count(s, Below(y)) == 0
  {
    if s != [] {
      NoneBelow(s[1..], y);
    }
  }

  /** `x` is the element of rank `k` (from 0) in the order of `s`. */
  ghost predicate Ranks(s: seq<real>, x: real, k: nat) {
    x in s && Count(s, Below(x)) <= k < Count(s, AtMost(x))
  }

  lemma {:induction false} RankInSorted(s: seq<real>, k: nat)
    requires Sorted(s) && k < |s|
    ensures Ranks(s, s[k], k)
  {
    var y := s[k];
    if k == 0 {
      NoneBelow(s, y);
    } else {
      var t := s[1..];
      RankInSorted(t, k - 1);
      assert t[k - 1] == y;
    }
  }

  lemma {:induction false} SortRanks(s: seq<real>, k: nat)
    requires k < |s|
    ensures Ranks(s, Sort(s)[k], k)
  {
    SortSorted(s);
    var x := Sort(s)[k];
    RankInSorted(Sort(s), k);
    SortCount(s, Below(x));
    SortCount(s, AtMost(x));
  }

  /** Ranks order the elements, so the element of a rank is determined. */
  lemma {:induction false} RanksAreOrdered(s: seq<real>, x: real, j: nat, y: real, k: nat)
    requires Ranks(s, x, j) && Ranks(s, y, k) && j <= k
    ensures x <= y
  {
    if y < x {
      CountMonotone(s, AtMost(y), Below(x));
    }
  }

  // ---------------------------------------------------------------------------------------------
  // The median
  // ---------------------------------------------------------------------------------------------

  /** `statistics.median`. */
  function Median(s: seq<real>): real
    requires s != []
  {
    var t, h := Sort(s), |s| / 2;
    if |s| % 2 == 1 then t[h] else (t[h - 1] + t[h]) / 2.0
  }

  ghost predicate Within(s: seq<real>, lo: real, hi: real) {
    forall x :: x in s ==> lo <= x <= hi
  }

  lemma Average(a: real, b: real)
    requires a <= b
    ensures a <= (a + b) / 2.0 <= b
  {
  }

  lemma {:induction false} MedianBetween(s: seq<real>)
    requires s != []
    ensures Sort(s)[(|s| - 1) / 2] <= Median(s) <= Sort(s)[|s| / 2]
  {
    SortSorted(s);
    var t, h := Sort(s), |s| / 2;
    if |s| % 2 == 0 {
      Average(t[h - 1], t[h]);
    }
  }

  /** No more than half the values lie below the median and no more than half above it. */
  lemma {:induction false} MedianHalves(s: seq<real>)
    requires s != []
    ensures 2 * Count(s, Below(Median(s))) <= |s| && 2 * Count(s, Above(Median(s))) <= |s|
  {
    var m := Median(s);
    var a, b := Sort(s)[(|s| - 1) / 2], Sort(s)[|s| / 2];
    MedianBetween(s);
    SortRanks(s, (|s| - 1) / 2);
    SortRanks(s, |s| / 2);
    CountMonotone(s, Below(m), Below(b));
    CountMonotone(s, Above(m), Above(a));
    AboveOrAtMost(s, a);
  }

  lemma MedianWithin(s: seq<real>, lo: real, hi: real)
    requires s != [] && Within(s, lo, hi)
    ensures lo <= Median(s) <= hi
  {
    MedianBetween(s);
    assert Sort(s)[(|s| - 1) / 2] in s && Sort(s)[|s| / 2] in s;
  }

  // ---------------------------------------------------------------------------------------------
  // The bootstrap
  // ---------------------------------------------------------------------------------------------

  datatype Interval = Interval(median: real, low: real, high: real, resamples: nat)

  /** One resample: as many values as there are, each drawn from them. */
  function Sample(values: seq<real>, draw: nat -> nat): (r: seq<real>)
    requires values != []
    ensures |r| == |values| && forall x :: x in r ==> x in values
  {
    seq(|values|, i requires 0 <= i < |values| => values[draw(i) % |values|])
  }

  function Medians(values: seq<real>, draws: nat -> nat -> nat, n: nat): (r: seq<real>)
    requires values != []
    ensures |r| == n
  {
    seq(n, i requires 0 <= i < n => Median(Sample(values, draws(i))))
  }

  /** The median of the values, and the elements of rank n/40 and 39n/40 among the resampled medians. */
  ghost predicate IsInterval(values: seq<real>, draws: nat -> nat -> nat, n: nat, iv: Interval)
    requires values != []
  {
    && iv.median == Median(values) && iv.resamples == n
    && Ranks(Medians(values, draws, n), iv.low, n / 40)
    && Ranks(Medians(values, draws, n), iv.high, 39 * n / 40)
  }

  /** `bootstrap_median_interval`; `None` is its ValueError. */
  method Bootstrap(values: seq<real>, draws: nat -> nat -> nat, resamples: int) returns (r: Option<Interval>)
    ensures r.None? <==> values == [] || resamples < 100
    ensures r.Some? ==> IsInterval(values, draws, resamples, r.value)
  {
    if values == [] || resamples < 100 {
      return None;
    }
    var medians: seq<real> := [];
    for i := 0 to resamples
      invariant |medians| == i
      invariant forall k :: 0 <= k < i ==> medians[k] == Median(Sample(values, draws(k)))
    {
      var sample: seq<real> := [];
      for k := 0 to |values|
        invariant |sample| == k
        invariant forall j :: 0 <= j < k ==> sample[j] == values[draws(i)(j) % |values|]
      {
        sample := sample + [values[draws(i)(k) % |values|]];
      }
      assert sample == Sample(values, draws(i));
      medians := medians + [Median(sample)];
    }
    assert medians == Medians(values, draws, resamples);
    var low, high := resamples / 40, 39 * resamples / 40;
    high := if resamples - 1 < high then resamples - 1 else high;
    var sorted := Sort(medians);
    SortRanks(medians, low);
    SortRanks(medians, high);
    return Some(Interval(Median(values), sorted[low], sorted[high], resamples));
  }

  /** Both ends lie between any bounds of the values, the lower one first. */
  lemma {:induction false} IntervalIsOrdered(values: seq<real>, draws: nat -> nat -> nat, n: nat, iv: Interval, lo: real, hi: real)
    requires values != [] && IsInterval(values, draws, n, iv) && Within(values, lo, hi)
    ensures lo <= iv.low <= iv.high <= hi
  {
    var ms := Medians(values, draws, n);
    RanksAreOrdered(ms, iv.low, n / 40, iv.high, 39 * n / 40);
    forall x | x in ms
      ensures lo <= x <= hi
    {
      var i :| 0 <= i < n && ms[i] == x;
      MedianWithin(Sample(values, draws(i)), lo, hi);
    }
  }

  // ---------------------------------------------------------------------------------------------
  // The verdict
  // ---------------------------------------------------------------------------------------------

  datatype Status = InvalidCampaign | DemonstratedSavings | NoDemonstratedSavings | Inconclusive

  function ClassifySavings(gates: seq<bool>, iv: Interval): Status {
    if false in gates then InvalidCampaign
    else if iv.low > 0.0 then DemonstratedSavings
    else if iv.high <= 0.0 then NoDemonstratedSavings
    else Inconclusive
  }

  /** Whatever is drawn: a failed gate voids the campaign; otherwise savings on every pair are always
      demonstrated, savings on no pair never are, and a demonstrated saving needs a pair that saved,
      an undemonstrated one a pair that did not. */
  lemma {:induction false} VerdictFollowsThePairs(values: seq<real>, draws: nat -> nat -> nat, n: nat, iv: Interval, gates: seq<bool>)
    requires values != [] && IsInterval(values, draws, n, iv)
    ensures ClassifySavings(gates, iv) == InvalidCampaign <==> false in gates
    ensures false !in gates && (forall x :: x in values ==> x > 0.0) ==> ClassifySavings(gates, iv) == DemonstratedSavings
    ensures false !in gates && (forall x :: x in values ==> x <= 0.0) ==> ClassifySavings(gates, iv) == NoDemonstratedSavings
    ensures ClassifySavings(gates, iv) == DemonstratedSavings ==> exists x :: x in values && x > 0.0
    ensures ClassifySavings(gates, iv) == NoDemonstratedSavings ==> exists x :: x in values && x <= 0.0
  {
    var lo, hi := Least(values), Greatest(values);
    IntervalIsOrdered(values, draws, n, iv, lo, hi);
  }

  function Least(s: seq<real>): (r: real)
    requires s != []
    ensures r in s && forall x :: x in s ==> r <= x
  {
    if |s| == 1 then s[0] else
      var m := Least(s[1..]);
      assert s == [s[0]] + s[1..];
      if s[0] <= m then s[0] else m
  }

  function Greatest(s: seq<real>): (r: real)
    requires s != []
    ensures r in s && forall x :: x in s ==> x <= r
  {
    if |s| == 1 then s[0] else
      var m := Greatest(s[1..]);
      assert s == [s[0]] + s[1..];
      if s[0] >= m then s[0] else m
  }
}
