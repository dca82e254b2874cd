/** The orientation part of data_processing/lot_engineering.py: the reduction of an edge
    angle modulo 90 degrees in `get_orientation`, and the guard and the histogram of
    `calculate_orientation_entropy`. */
module Orientation {
  import opened Wrappers
  import opened Geometry

  /** The default number of histogram bins: 36 bins of 2.5 degrees over [0, 90]. */
  const DefaultBins: nat := 36

  predicate IsWhole(y: real)
  {
    y.Floor as real == y
  }

  /** `edge_angle_deg % 90` with Python's float `%`, which rounds the quotient down, so
      that the remainder takes the sign of the divisor. */
  function AngleMod90(a: real): (r: real)
    ensures 0.0 <= r < 90.0
    ensures IsWhole((a - r) / 90.0)
  {
    a - 90.0 * (a / 90.0).Floor as real
  }

  /** The remainder is the only value in [0, 90) that differs from the angle by a whole
      number of turns of 90 degrees. */
  lemma {:induction false} AngleMod90Unique(a: real, r: real)
    requires 0.0 <= r < 90.0 && IsWhole((a - r) / 90.0)
    ensures r == AngleMod90(a)
  {
    var q := ((a - r) / 90.0).Floor;
    assert a == r + 90.0 * q as real;
    var y := a / 90.0;
    assert y == r / 90.0 + q as real;
    assert 0.0 <= r / 90.0 < 1.0;
    assert y.Floor == q;
  }

  /** Rotating the edge by any whole number of quarter turns leaves the orientation
      unchanged: a rectangle and its 90-degree rotation report the same angle. */
  lemma {:induction false} AngleMod90Periodic(a: real, k: int)
    ensures AngleMod90(a + 90.0 * k as real) == AngleMod90(a)
  {
    var b := a + 90.0 * k as real;
    var q := (a / 90.0).Floor;
    assert b / 90.0 == a / 90.0 + k as real;
    assert (b / 90.0).Floor == q + k;
  }

  /** An angle already in [0, 90) is its own orientation. */
  lemma {:induction false} AngleMod90Fixed(a: real)
    requires 0.0 <= a < 90.0
    ensures AngleMod90(a) == a
  {
    assert (a - a) / 90.0 == 0.0;
    AngleMod90Unique(a, a);
  }

  /** `get_orientation`, from the edge angle of the minimum rotated rectangle on. */
  function PolygonOrientation(p: Polygon): (r: real)
    ensures 0.0 <= r < 90.0
    ensures IsWhole((p.edgeAngle - r) / 90.0)
  {
    AngleMod90(p.edgeAngle)
  }

  function Orientations(ps: seq<Polygon>): (r: seq<real>)
    ensures |r| == |ps|
    ensures forall i :: 0 <= i < |ps| ==> r[i] == PolygonOrientation(ps[i])
  {
    seq(|ps|, i requires 0 <= i < |ps| => PolygonOrientation(ps[i]))
  }

  /** The lower edge of bin k out of `bins` equal bins over [0, 90]. */
  function LowerEdge(k: int, bins: nat): real
    requires bins > 0
  {
    90.0 * k as real / bins as real
  }

  /** The bin that `np.histogram(..., bins, range=(0, 90))` counts a value in: each bin
      is closed on the left and open on the right, except the last, which also holds
      90; a value outside [0, 90] is counted in no bin. */
  function BinOf(v: real, bins: nat): (k: Option<nat>)
    requires bins > 0
    ensures k.Some? <==> 0.0 <= v <= 90.0
    ensures k.Some? ==> k.value < bins && LowerEdge(k.value, bins) <= v
    ensures k.Some? ==> v < LowerEdge(k.value + 1, bins) || (v == 90.0 && k.value == bins - 1)
  {
    if v < 0.0 || v > 90.0 then None
    else if v == 90.0 then
      BinEdgeLast(bins);
      Some(bins - 1)
    else
      var f := (v * bins as real / 90.0).Floor;
      BinEdges(v, bins, f);
      Some(f as nat)
  }

  lemma {:induction false} BinEdgeLast(bins: nat)
    requires bins > 0
    ensures LowerEdge(bins - 1, bins) <= 90.0
  {
    var b := bins as real;
    assert 90.0 * (bins - 1) as real <= 90.0 * b;
  }

  /** The bin given by flooring `v * bins / 90` is the one whose edges enclose v. */
  lemma {:induction false} BinEdges(v: real, bins: nat, f: int)
    requires bins > 0 && 0.0 <= v < 90.0 && f == (v * bins as real / 90.0).Floor
    ensures 0 <= f < bins
    ensures LowerEdge(f, bins) <= v < LowerEdge(f + 1, bins)
  {
    var b := bins as real;
    var y := v * b / 90.0;
    ProductBelow(v, 90.0, b);
    assert 0.0 <= y < b;
    assert f as real <= y < f as real + 1.0;
    assert 90.0 * f as real <= v * b;
    assert v * b < 90.0 * (f + 1) as real;
    DivideBoth(90.0 * f as real, v, b);
    DivideBoth2(v, 90.0 * (f + 1) as real, b);
  }

  lemma {:induction false} ProductBelow(v: real, m: real, b: real)
    requires 0.0 <= v < m && b > 0.0
    ensures 0.0 <= v * b < m * b
  {
  }

  lemma {:induction false} DivideBoth(x: real, v: real, b: real)
    requires b > 0.0 && x <= v * b
    ensures x / b <= v
  {
  }

  lemma {:induction false} DivideBoth2(v: real, x: real, b: real)
    requires b > 0.0 && v * b < x
    ensures v < x / b
  {
  }

  /** How many of the values fall in bin k. */
  function CountIn(vs: seq<real>, bins: nat, k: nat): nat
    requires bins > 0
  {
    if |vs| == 0 then 0
    else CountIn(vs[..|vs| - 1], bins, k) + if BinOf(vs[|vs| - 1], bins) == Some(k) then 1 else 0
  }

  /** The counts `np.histogram` returns: one per bin. */
  function HistogramOf(vs: seq<real>, bins: nat): (h: seq<nat>)
    requires bins > 0
    ensures |h| == bins
    ensures forall k :: 0 <= k < bins ==> h[k] == CountIn(vs, bins, k)
  {
    seq(bins, k requires 0 <= k < bins => CountIn(vs, bins, k))
  }

  function Total(h: seq<nat>): nat
  {
    if |h| == 0 then 0 else h[0] + Total(h[1..])
  }

  predicate InRange(vs: seq<real>)
  {
    forall i :: 0 <= i < |vs| ==> 0.0 <= vs[i] <= 90.0
  }

  lemma {:induction false} TotalZero(h: seq<nat>)
    requires forall k :: 0 <= k < |h| ==> h[k] == 0
    ensures Total(h) == 0
  {
    if |h| > 0 {
      TotalZero(h[1..]);
    }
  }

  /** Adding one to a single count adds one to the total. */
  lemma {:induction false} TotalIncrement(h: seq<nat>, h': seq<nat>, k: nat)
    requires |h'| == |h| && k < |h| && h'[k] == h[k] + 1
    requires forall j :: 0 <= j < |h| && j != k ==> h'[j] == h[j]
    ensures Total(h') == Total(h) + 1
  {
    if k == 0 {
      assert h'[1..] == h[1..];
    } else {
      TotalIncrement(h[1..], h'[1..], k - 1);
    }
  }

  /** Every value in [0, 90] is counted in exactly one bin, so the counts add up to the
      number of values. */
  lemma {:induction false} HistogramTotal(vs: seq<real>, bins: nat)
    requires bins > 0 && InRange(vs)
    ensures Total(HistogramOf(vs, bins)) == |vs|
  {
    if |vs| == 0 {
      TotalZero(HistogramOf(vs, bins));
    } else {
      var init, v := vs[..|vs| - 1], vs[|vs| - 1];
      assert InRange(init);
      HistogramTotal(init, bins);
      var k := BinOf(v, bins).value;
      TotalIncrement(HistogramOf(init, bins), HistogramOf(vs, bins), k);
    }
  }

  /** Values that all fall in one bin k give a histogram with every value in bin k and
      none elsewhere: the distribution whose entropy is 0. */
  lemma {:induction false} HistogramOneBin(vs: seq<real>, bins: nat, k: nat)
    requires bins > 0 && k < bins
    requires forall i :: 0 <= i < |vs| ==> BinOf(vs[i], bins) == Some(k)
    ensures HistogramOf(vs, bins)[k] == |vs|
    ensures forall j :: 0 <= j < bins && j != k ==> HistogramOf(vs, bins)[j] == 0
  {
    forall j | 0 <= j < bins ensures CountIn(vs, bins, j) == if j == k then |vs| else 0 {
      CountOneBin(vs, bins, k, j);
    }
  }

  lemma {:induction false} CountOneBin(vs: seq<real>, bins: nat, k: nat, j: nat)
    requires bins > 0
    requires forall i :: 0 <= i < |vs| ==> BinOf(vs[i], bins) == Some(k)
    ensures CountIn(vs, bins, j) == if j == k then |vs| else 0
  {
    if |vs| > 0 {
      CountOneBin(vs[..|vs| - 1], bins, k, j);
    }
  }

  /** The histogram `calculate_orientation_entropy` builds, as a counting pass that fills
      one count per bin. */
  method Histogram(vs: seq<real>, bins: nat) returns (h: seq<nat>)
    requires bins > 0
    ensures h == HistogramOf(vs, bins)
  {
    var counts := new nat[bins](_ => 0);
    var i := 0;
    while i < |vs|
      invariant 0 <= i <= |vs|
      invariant forall k :: 0 <= k < bins ==> counts[k] == CountIn(vs[..i], bins, k)
    {
      assert vs[..i + 1][..i] == vs[..i];
      match BinOf(vs[i], bins) {
        case Some(k) => counts[k] := counts[k] + 1;
        case None =>
      }
      i := i + 1;
    }
    assert vs[..i] == vs;
    h := counts[..];
  }

  /** The value `calculate_orientation_entropy` returns: the literal 0.0, or the Shannon
      entropy of the counts divided by log(bins), which is not computed here. */
  datatype Entropy = ZeroEntropy | EntropyOf(counts: seq<nat>)

  /** `calculate_orientation_entropy(geoms, bins)`: 0.0 for no polygon or one, otherwise
      the histogram of the polygon orientations. */
  function OrientationEntropy(ps: seq<Polygon>, bins: nat): (r: Entropy)
    requires |ps| > 1 ==> bins > 0
    ensures r.EntropyOf? <==> |ps| > 1
    ensures r.EntropyOf? ==> |r.counts| == bins
  {
    if |ps| <= 1 then ZeroEntropy
    else EntropyOf(HistogramOf(Orientations(ps), bins))
  }

  /** The histogram counts every polygon once: its counts add up to the number of
      polygons. */
  lemma {:induction false} OrientationEntropyCounts(ps: seq<Polygon>, bins: nat)
    requires |ps| > 1 && bins > 0
    ensures Total(OrientationEntropy(ps, bins).counts) == |ps|
  {
    HistogramTotal(Orientations(ps), bins);
  }

  /** Polygons that all share one orientation fill a single bin. */
  lemma {:induction false} OrientationEntropyAligned(ps: seq<Polygon>, bins: nat, angle: real)
    requires |ps| > 1 && bins > 0
    requires forall i :: 0 <= i < |ps| ==> PolygonOrientation(ps[i]) == angle
    ensures var e := OrientationEntropy(ps, bins);
      exists k :: 0 <= k < bins && e.counts[k] == |ps| &&
        forall j :: 0 <= j < bins && j != k ==> e.counts[j] == 0
  {
    assert angle == PolygonOrientation(ps[0]);
    var k := BinOf(angle, bins).value;
    var os := Orientations(ps);
    assert forall i :: 0 <= i < |os| ==> BinOf(os[i], bins) == Some(k);
    HistogramOneBin(os, bins, k);
    assert OrientationEntropy(ps, bins).counts == HistogramOf(os, bins);
  }

  /** Each polygon turned by its own whole number of quarter turns. */
  predicate QuarterTurned(ps: seq<Polygon>, qs: seq<Polygon>)
  {
    |ps| == |qs| &&
    forall i :: 0 <= i < |ps| ==>
      IsWhole((qs[i].edgeAngle - ps[i].edgeAngle) / 90.0)
  }

  /** Turning polygons by quarter turns does not change the entropy computed for them. */
  lemma {:induction false} OrientationEntropyQuarterTurns(ps: seq<Polygon>, qs: seq<Polygon>, bins: nat)
    requires QuarterTurned(ps, qs) && (|ps| > 1 ==> bins > 0)
    ensures OrientationEntropy(qs, bins) == OrientationEntropy(ps, bins)
  {
    forall i | 0 <= i < |ps| ensures PolygonOrientation(qs[i]) == PolygonOrientation(ps[i]) {
      var k := ((qs[i].edgeAngle - ps[i].edgeAngle) / 90.0).Floor;
      assert qs[i].edgeAngle == ps[i].edgeAngle + 90.0 * k as real;
      AngleMod90Periodic(ps[i].edgeAngle, k);
    }
    assert Orientations(qs) == Orientations(ps);
  }

  /** `calculate_orientation_entropy`, computing the histogram with the counting pass. */
  method CalculateOrientationEntropy(ps: seq<Polygon>, bins: nat) returns (e: Entropy)
    requires |ps| > 1 ==> bins > 0
    ensures e == OrientationEntropy(ps, bins)
    ensures e.EntropyOf? <==> |ps| > 1
    ensures e.EntropyOf? ==> |e.counts| == bins && Total(e.counts) == |ps|
  {
    if |ps| <= 1 {
      return ZeroEntropy;
    }
    var angles := Orientations(ps);
    var hist := Histogram(angles, bins);
    OrientationEntropyCounts(ps, bins);
    e := EntropyOf(hist);
  }
}
