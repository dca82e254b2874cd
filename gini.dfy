/** `gini_coefficient` in data_processing/lot_engineering.py: the Gini coefficient of the
    constituent-polygon areas of one region, in exact real arithmetic. */
module Gini {

  /** `np.sum`. */
  function Sum(x: seq<real>): real
  {
    if |x| == 0 then 0.0 else x[0] + Sum(x[1..])
  }

  lemma {:induction false} SumSingle(a: real)
    ensures Sum([a]) == a
  {
    assert [a][1..] == [];
  }

  /** Non-negative values have a non-negative sum. */
  lemma {:induction false} SumNonnegative(s: seq<real>)
    ensures Nonnegative(s) ==> Sum(s) >= 0.0
  {
    if Nonnegative(s) {
      assert AllAtLeast(s, 0.0);
      SumAtLeast(s, 0.0);
    }
  }

  predicate Sorted(s: seq<real>)
  {
    forall i, j :: 0 <= i < j < |s| ==> s[i] <= s[j]
  }

  predicate AllAtLeast(s: seq<real>, a: real)
  {
    forall i :: 0 <= i < |s| ==> a <= s[i]
  }

  predicate Nonnegative(s: seq<real>)
  {
    forall i :: 0 <= i < |s| ==> 0.0 <= s[i]
  }

  /** Insertion of one value into an ascending sequence. */
  function Insert(a: real, s: seq<real>): (r: seq<real>)
    ensures multiset(r) == multiset(s) + multiset{a}
  {
    if s == [] then [a]
    else if a <= s[0] then [a] + s
    else
      assert s == [s[0]] + s[1..];
      [s[0]] + Insert(a, s[1..])
  }

  lemma {:induction false} InsertSorted(a: real, s: seq<real>)
    requires Sorted(s)
    ensures Sorted(Insert(a, s))
  {
    if s != [] && a > s[0] {
      var t := Insert(a, s[1..]);
      InsertSorted(a, s[1..]);
      forall k | 0 <= k < |t| ensures s[0] <= t[k] {
        assert t[k] in multiset(t);
        assert t[k] == a || t[k] in multiset(s[1..]);
      }
    }
  }

  lemma {:induction false} InsertSum(a: real, s: seq<real>)
    ensures Sum(Insert(a, s)) == a + Sum(s)
  {
    if s != [] && a > s[0] {
      InsertSum(a, s[1..]);
      assert ([s[0]] + Insert(a, s[1..]))[1..] == Insert(a, s[1..]);
    }
  }

  /** `np.sort`: the values in ascending order. */
  function Sort(x: seq<real>): (r: seq<real>)
    ensures Sorted(r) && multiset(r) == multiset(x)
  {
    if x == [] then []
    else
      assert x == [x[0]] + x[1..];
      InsertSorted(x[0], Sort(x[1..]));
      Insert(x[0], Sort(x[1..]))
  }

  lemma {:induction false} SortSum(x: seq<real>)
    ensures |Sort(x)| == |x| && Sum(Sort(x)) == Sum(x)
  {
    assert |Sort(x)| == |multiset(Sort(x))| == |multiset(x)| == |x|;
    if x != [] {
      SortSum(x[1..]);
      InsertSum(x[0], Sort(x[1..]));
    }
  }

  /** The first value of an ascending sequence is its least. */
  lemma {:induction false} SortedFirst(a: seq<real>, v: real)
    requires Sorted(a) && v in a
    ensures a[0] <= v
  {
    var j :| 0 <= j < |a| && a[j] == v;
  }

  lemma {:induction false} SortedTail(a: seq<real>)
    requires Sorted(a) && |a| > 0
    ensures Sorted(a[1..])
  {
    forall i, j | 0 <= i < j < |a| - 1 ensures a[1..][i] <= a[1..][j] {
      assert a[1..][i] == a[i + 1] && a[1..][j] == a[j + 1];
    }
  }

  /** An ascending sequence is determined by its multiset of values. */
  lemma {:induction false} SortedUnique(a: seq<real>, b: seq<real>)
    requires Sorted(a) && Sorted(b) && multiset(a) == multiset(b)
    ensures a == b
  {
    assert |a| == |multiset(a)| == |multiset(b)| == |b|;
    if |a| > 0 {
      SortedHeads(a, b);
      SortedTail(a);
      SortedTail(b);
      SortedUnique(a[1..], b[1..]);
      assert a == [a[0]] + a[1..] && b == [b[0]] + b[1..];
    }
  }

  /** Two ascending sequences with the same values start with the same least value and
      go on with the same remaining values. */
  lemma {:induction false} SortedHeads(a: seq<real>, b: seq<real>)
    requires Sorted(a) && Sorted(b) && multiset(a) == multiset(b) && |a| > 0 && |b| > 0
    ensures a[0] == b[0] && multiset(a[1..]) == multiset(b[1..])
  {
    assert a[0] in multiset(b) && b[0] in multiset(a);
    SortedFirst(b, a[0]);
    SortedFirst(a, b[0]);
    assert a == [a[0]] + a[1..] && b == [b[0]] + b[1..];
    assert multiset(a[1..]) == multiset(a) - multiset{a[0]};
    assert multiset(b[1..]) == multiset(b) - multiset{b[0]};
  }

  /** The numerator of the formula, `sum((2 * index - n - 1) * x)`, for the values of `x`
      taken with ranks `rank`, `rank + 1`, ... */
  function RankSum(x: seq<real>, rank: int, n: int): real
  {
    if |x| == 0 then 0.0
    else (2 * rank - n - 1) as real * x[0] + RankSum(x[1..], rank + 1, n)
  }

  /** The formula applied to ascending values: the ranked sum over `n * sum(x)`. */
  function RankRatio(s: seq<real>): (r: real)
    requires |s| > 0 && Sum(s) != 0.0
    ensures r * ((|s| as real) * Sum(s)) == RankSum(s, 1, |s|)
  {
    var d := (|s| as real) * Sum(s);
    assert d != 0.0;
    RankSum(s, 1, |s|) / d
  }

  /** `gini_coefficient`: 0.0 for at most one value or a zero sum; otherwise the formula
      applied to the values sorted ascending. */
  function GiniCoefficient(x: seq<real>): (g: real)
    ensures |x| <= 1 || Sum(x) == 0.0 ==> g == 0.0
  {
    if |x| <= 1 || Sum(x) == 0.0 then 0.0
    else
      SortSum(x);
      RankRatio(Sort(x))
  }

  /** Raising every rank and the count by one adds the sum once more. */
  lemma {:induction false} RankSumShift(x: seq<real>, rank: int, n: int)
    ensures RankSum(x, rank + 1, n + 1) == RankSum(x, rank, n) + Sum(x)
  {
    if |x| > 0 {
      RankSumShift(x[1..], rank + 1, n);
    }
  }

  lemma {:induction false} SumAtLeast(s: seq<real>, a: real)
    requires AllAtLeast(s, a)
    ensures Sum(s) >= |s| as real * a
  {
    if |s| > 0 {
      assert AllAtLeast(s[1..], a);
      SumAtLeast(s[1..], a);
    }
  }

  lemma {:induction false} SumAbove(s: seq<real>, a: real)
    requires AllAtLeast(s, a) && |s| > 0 && s[|s| - 1] > a
    ensures Sum(s) > |s| as real * a
  {
    assert AllAtLeast(s[1..], a);
    if |s| == 1 {
      assert Sum(s[1..]) == 0.0;
    } else {
      SumAbove(s[1..], a);
    }
  }

  /** Taking the smallest-ranked value out of the numerator. */
  lemma {:induction false} RankSumFirst(x: seq<real>)
    requires |x| > 0
    ensures RankSum(x, 1, |x|) == RankSum(x[1..], 1, |x| - 1) + Sum(x[1..]) - (|x| - 1) as real * x[0]
  {
    var m, a, rest := |x| - 1, x[0], x[1..];
    RankSumShift(rest, 1, m);
    var w := (2 * 1 - |x| - 1) as real;
    assert w == -(m as real);
    assert RankSum(x, 1, |x|) == w * a + RankSum(rest, 2, |x|);
    assert w * a == -(m as real * a);
  }

  /** For ascending values the numerator equals the sum of all pairwise differences
      x[j] - x[i], i < j, and so is not negative; it is positive when the values are not
      all equal. */
  lemma {:induction false} RankSumSortedBounds(x: seq<real>)
    requires Sorted(x)
    ensures RankSum(x, 1, |x|) >= 0.0
    ensures |x| > 0 && x[0] < x[|x| - 1] ==> RankSum(x, 1, |x|) > 0.0
  {
    if |x| > 0 {
      var a, rest, m := x[0], x[1..], |x| - 1;
      RankSumFirst(x);
      assert AllAtLeast(rest, a);
      SumAtLeast(rest, a);
      RankSumSortedBounds(rest);
      if a < x[|x| - 1] {
        SumAbove(rest, a);
      }
    }
  }

  /** Every rank weight is at most `top`, the weight of the last rank, so for nonnegative
      values the numerator is at most `top` times the sum. */
  lemma {:induction false} RankSumUpper(x: seq<real>, rank: int, n: int, top: int)
    requires Nonnegative(x) && top == 2 * (rank + |x| - 1) - n - 1
    ensures RankSum(x, rank, n) <= top as real * Sum(x)
  {
    if |x| > 0 {
      var w := 2 * rank - n - 1;
      assert Nonnegative(x[1..]);
      RankSumUpper(x[1..], rank + 1, n, top);
      assert w <= top;
      MulMonotone(x[0], w as real, top as real);
    }
  }

  lemma {:induction false} MulMonotone(a: real, w: real, top: real)
    requires 0.0 <= a && w <= top
    ensures w * a <= top * a
  {
  }

  lemma {:induction false} RatioBounds(num: real, sum: real, n: int)
    requires n > 0 && sum > 0.0 && 0.0 <= num <= (n - 1) as real * sum
    ensures 0.0 <= num / ((n as real) * sum) <= (n - 1) as real / n as real < 1.0
  {
    var d := (n as real) * sum;
    assert d > 0.0;
    assert num / d <= ((n - 1) as real * sum) / d;
    assert ((n - 1) as real * sum) / d == (n - 1) as real / n as real;
  }

  /** The values of an ascending rearrangement of nonnegative values are nonnegative. */
  lemma {:induction false} SortNonnegative(x: seq<real>)
    requires Nonnegative(x)
    ensures Nonnegative(Sort(x))
  {
    var s := Sort(x);
    forall i | 0 <= i < |s| ensures 0.0 <= s[i] {
      assert s[i] in multiset(x);
    }
  }

  /** The bounds for ascending values; `n` names their count. */
  lemma {:induction false} RankRatioBounds(s: seq<real>, n: int)
    requires Sorted(s) && Nonnegative(s) && Sum(s) > 0.0 && n == |s|
    ensures 0.0 <= RankRatio(s) <= (n - 1) as real / n as real < 1.0
  {
    var num, sum := RankSum(s, 1, n), Sum(s);
    assert RankRatio(s) == num / ((n as real) * sum);
    RankSumSortedBounds(s);
    assert 0.0 <= num;
    RankSumUpper(s, 1, n, n - 1);
    assert num <= (n - 1) as real * sum;
    RatioBounds(num, sum, n);
  }

  /** For nonnegative values with a positive sum, 0 <= gini <= (n - 1) / n < 1. */
  lemma {:induction false} GiniBounds(x: seq<real>)
    requires Nonnegative(x) && Sum(x) > 0.0
    ensures 0.0 <= GiniCoefficient(x) <= (|x| - 1) as real / |x| as real < 1.0
  {
    assert |x| > 0;
    if |x| > 1 {
      SortSum(x);
      SortNonnegative(x);
      RankRatioBounds(Sort(x), |x|);
    }
  }

  lemma {:induction false} SortedEnds(s: seq<real>, p: int, q: int)
    requires Sorted(s) && 0 <= p < |s| && 0 <= q < |s|
    ensures s[0] <= s[p] && s[q] <= s[|s| - 1]
  {
  }

  lemma {:induction false} RankRatioPositive(s: seq<real>)
    requires Sorted(s) && Sum(s) > 0.0 && |s| > 1 && s[0] < s[|s| - 1]
    ensures RankRatio(s) > 0.0
  {
    RankSumSortedBounds(s);
    var num, d := RankSum(s, 1, |s|), (|s| as real) * Sum(s);
    assert d > 0.0;
  }

  /** Values that are not all equal, with a positive sum and none negative, have a
      strictly positive coefficient. */
  lemma {:induction false} GiniPositive(x: seq<real>, i: int, j: int)
    requires Nonnegative(x) && Sum(x) > 0.0
    requires 0 <= i < |x| && 0 <= j < |x| && x[i] < x[j]
    ensures 0.0 < GiniCoefficient(x) < 1.0
  {
    GiniBounds(x);
    var s := Sort(x);
    SortSum(x);
    assert x[i] in multiset(s) && x[j] in multiset(s);
    var p :| 0 <= p < |s| && s[p] == x[i];
    var q :| 0 <= q < |s| && s[q] == x[j];
    SortedEnds(s, p, q);
    RankRatioPositive(s);
  }

  /** The sum of the rank weights `rank .. rank + |x| - 1` applied to a constant c. */
  lemma {:induction false} RankSumConstant(x: seq<real>, c: real, rank: int, n: int)
    requires forall i :: 0 <= i < |x| ==> x[i] == c
    ensures RankSum(x, rank, n) == c * (|x| * (2 * rank + |x| - n - 2)) as real
  {
    if |x| > 0 {
      var m := |x|;
      RankSumConstant(x[1..], c, rank + 1, n);
      assert (m - 1) * (2 * rank + m - n - 1) + (2 * rank - n - 1) == m * (2 * rank + m - n - 2);
    }
  }

  lemma {:induction false} SortConstant(x: seq<real>, c: real)
    requires forall i :: 0 <= i < |x| ==> x[i] == c
    ensures forall i :: 0 <= i < |Sort(x)| ==> Sort(x)[i] == c
  {
    var s := Sort(x);
    forall i | 0 <= i < |s| ensures s[i] == c {
      assert s[i] in multiset(x);
    }
  }

  lemma {:induction false} RankRatioConstant(s: seq<real>, c: real)
    requires |s| > 0 && Sum(s) != 0.0
    requires forall i :: 0 <= i < |s| ==> s[i] == c
    ensures RankRatio(s) == 0.0
  {
    RankSumConstant(s, c, 1, |s|);
    assert |s| * (2 * 1 + |s| - |s| - 2) == 0;
  }

  /** All-equal values give exactly 0: the rank weights sum to zero. */
  lemma {:induction false} GiniAllEqual(x: seq<real>, c: real)
    requires forall i :: 0 <= i < |x| ==> x[i] == c
    ensures GiniCoefficient(x) == 0.0
  {
    if |x| > 1 && Sum(x) != 0.0 {
      SortSum(x);
      SortConstant(x, c);
      RankRatioConstant(Sort(x), c);
    }
  }

  /** Sorting first makes the coefficient a function of the multiset of values only. */
  lemma {:induction false} GiniOrderIndependent(x: seq<real>, y: seq<real>)
    requires multiset(x) == multiset(y)
    ensures GiniCoefficient(x) == GiniCoefficient(y)
  {
    SortedUnique(Sort(x), Sort(y));
    SortSum(x);
    SortSum(y);
  }

  /** One value multiplied by the factor c. */
  function Times(c: real, v: real): real
  {
    c * v
  }

  /** `c * x` for a scalar c. */
  function Scale(c: real, x: seq<real>): (r: seq<real>)
    ensures |r| == |x|
  {
    if x == [] then [] else [Times(c, x[0])] + Scale(c, x[1..])
  }

  lemma {:induction false} ScaleCons(c: real, a: real, s: seq<real>)
    ensures Scale(c, [a] + s) == [Times(c, a)] + Scale(c, s)
  {
    assert ([a] + s)[1..] == s;
  }

  /** Multiplying by a positive factor keeps the order of two values. */
  lemma {:induction false} TimesOrder(c: real, a: real, b: real)
    requires c > 0.0
    ensures a <= b <==> Times(c, a) <= Times(c, b)
  {
    assert Times(c, b) - Times(c, a) == c * (b - a);
  }

  lemma {:induction false} InsertScale(c: real, a: real, s: seq<real>)
    requires c > 0.0
    ensures Insert(Times(c, a), Scale(c, s)) == Scale(c, Insert(a, s))
  {
    if s == [] {
      ScaleCons(c, a, []);
    } else {
      var t := Scale(c, s);
      assert t[0] == Times(c, s[0]) && t[1..] == Scale(c, s[1..]);
      TimesOrder(c, a, s[0]);
      if a <= s[0] {
        ScaleCons(c, a, s);
      } else {
        InsertScale(c, a, s[1..]);
        ScaleCons(c, s[0], Insert(a, s[1..]));
      }
    }
  }

  lemma {:induction false} SortScale(c: real, x: seq<real>)
    requires c > 0.0
    ensures Sort(Scale(c, x)) == Scale(c, Sort(x))
  {
    if x != [] {
      var t := Scale(c, x);
      assert t[0] == Times(c, x[0]) && t[1..] == Scale(c, x[1..]);
      SortScale(c, x[1..]);
      InsertScale(c, x[0], Sort(x[1..]));
    }
  }

  lemma {:induction false} ScaleSum(c: real, x: seq<real>)
    ensures Sum(Scale(c, x)) == c * Sum(x)
  {
    if x != [] {
      var t, a := Scale(c, x), x[0];
      assert t[0] == Times(c, a) && t[1..] == Scale(c, x[1..]);
      ScaleSum(c, x[1..]);
      var b := Sum(x[1..]);
      assert Sum(t) == Times(c, a) + c * b;
      assert Sum(x) == a + b;
      assert Times(c, a) + c * b == c * (a + b);
    }
  }

  lemma {:induction false} ScaleRankSum(c: real, x: seq<real>, rank: int, n: int)
    ensures RankSum(Scale(c, x), rank, n) == c * RankSum(x, rank, n)
  {
    if x != [] {
      var t, a := Scale(c, x), x[0];
      assert t[0] == Times(c, a) && t[1..] == Scale(c, x[1..]);
      ScaleRankSum(c, x[1..], rank + 1, n);
      var b := RankSum(x[1..], rank + 1, n);
      var w := (2 * rank - n - 1) as real;
      assert RankSum(t, rank, n) == w * Times(c, a) + c * b;
      assert RankSum(x, rank, n) == w * a + b;
      assert w * Times(c, a) == c * (w * a);
      assert w * Times(c, a) + c * b == c * (w * a + b);
    }
  }

  lemma {:induction false} RatioScale(c: real, num: real, den: real)
    requires c > 0.0 && den != 0.0
    ensures (c * num) / (c * den) == num / den
  {
  }

  /** Two ratios over denominators `d` and `c * d` whose numerators are in the same
      proportion `c` are equal. */
  lemma {:induction false} CancelFactor(p: real, q: real, num: real, d: real, c: real)
    requires c > 0.0 && d != 0.0
    requires p * Times(c, d) == Times(c, num) && q * d == num
    ensures p == q
  {
    assert c * (p * d) == c * num;
    assert p * d == num;
    assert (p - q) * d == 0.0;
  }

  lemma {:induction false} RankRatioScale(s: seq<real>, c: real)
    requires c > 0.0 && |s| > 0 && Sum(s) != 0.0
    ensures Sum(Scale(c, s)) != 0.0 && RankRatio(Scale(c, s)) == RankRatio(s)
  {
    var t := Scale(c, s);
    var num, sum, n := RankSum(s, 1, |s|), Sum(s), |s| as real;
    ScaleSum(c, s);
    ScaleRankSum(c, s, 1, |s|);
    assert Sum(t) == Times(c, sum) && RankSum(t, 1, |t|) == Times(c, num);
    assert Times(c, sum) != 0.0;
    var p, m, st, rt := RankRatio(t), |t| as real, Sum(t), RankSum(t, 1, |t|);
    assert p * (m * st) == rt;
    ScaledRatio(p, RankRatio(s), m, st, rt, n, sum, num, c);
  }

  /** The arithmetic of `RankRatioScale`: `p` is the ratio of the scaled values, whose
      count is `m`, sum `st` and ranked sum `rt`, and `q` the ratio of the original ones. */
  lemma {:induction false} ScaledRatio(p: real, q: real, m: real, st: real, rt: real,
                                       n: real, sum: real, num: real, c: real)
    requires c > 0.0 && n > 0.0 && sum != 0.0
    requires p * (m * st) == rt && q * (n * sum) == num
    requires m == n && st == Times(c, sum) && rt == Times(c, num)
    ensures p == q
  {
    assert p * (n * Times(c, sum)) == Times(c, num);
    assert Times(c, n * sum) == n * Times(c, sum);
    CancelFactor(p, q, num, n * sum, c);
  }

  /** Multiplying every value by the same c > 0 leaves the coefficient unchanged. */
  lemma {:induction false} GiniScaleInvariant(x: seq<real>, c: real)
    requires c > 0.0
    ensures GiniCoefficient(Scale(c, x)) == GiniCoefficient(x)
  {
    ScaleSum(c, x);
    if |x| > 1 && Sum(x) != 0.0 {
      SortSum(x);
      SortSum(Scale(c, x));
      SortScale(c, x);
      RankRatioScale(Sort(x), c);
    }
  }

  /** Lots of 100 and 300 square metres: (-100 + 300) / (2 * 400) = 0.25, whatever their order. */
  lemma {:induction false} GiniTwoLots()
    ensures GiniCoefficient([100.0, 300.0]) == 0.25
    ensures GiniCoefficient([300.0, 100.0]) == 0.25
  {
    var up, down := [100.0, 300.0], [300.0, 100.0];
    TwoLotsFormula(up);
    assert multiset(down) == multiset(up);
    GiniOrderIndependent(down, up);
  }

  lemma {:induction false} TwoLotsFormula(up: seq<real>)
    requires up == [100.0, 300.0]
    ensures GiniCoefficient(up) == 0.25
  {
    assert up[1..] == [300.0] && [300.0][1..] == [];
    assert Sorted(up);
    SortedUnique(Sort(up), up);
    assert Sum(up) == 400.0;
    assert RankSum(up, 1, 2) == 200.0 by {
      assert RankSum([300.0], 2, 2) == 300.0;
    }
    assert RankRatio(up) == 200.0 / 800.0;
  }
}
