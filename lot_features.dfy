/** The lot feature table of data_processing/lot_engineering.py: the rows `load_lot_data`
    builds by joining the lots of each region to its boundary, the columns
    `add_geo_features` adds, and the Gini coefficient and orientation entropy columns
    `main` adds. */
module LotFeatures {
  import opened Wrappers
  import opened Geometry
  import opened Gini
  import opened Orientation

  /** A row of the lots file: the region id and the lot geometry of that region. */
  datatype Lot = Lot(id: string, geometry: LotGeometry)

  /** A row of the boundaries file, reduced to its id and the area of its boundary. The
      geometry itself is dropped before the join. */
  datatype Boundary = Boundary(id: string, boundaryArea: real)

  /** A row of the joined table: `city` is the renamed `id`; `boundaryArea` is None
      (NaN) when no boundary carries the lot's id. */
  datatype LotRow = LotRow(
    city: string,
    geometry: LotGeometry,
    totalLotArea: real,
    numLots: nat,
    boundaryArea: Option<real>)

  /** `geometry.area`: a MultiPolygon's area is the sum of the areas of its parts, and a
      polygon's area is its own. */
  function TotalLotArea(g: LotGeometry): (r: real)
    ensures g.Single? ==> r == g.polygon.area
    ensures Nonnegative(Areas(Constituents(g))) ==> r >= 0.0
  {
    var areas := Areas(Constituents(g));
    SumNonnegative(areas);
    if g.Single? then
      assert areas == [g.polygon.area];
      SumSingle(g.polygon.area);
      Sum(areas)
    else
      Sum(areas)
  }

  /** The `num_lots` rule: the number of parts of a MultiPolygon, and 1 otherwise. */
  function NumLots(g: LotGeometry): (n: nat)
    ensures n == |Constituents(g)|
    ensures g.Single? ==> n == 1
  {
    match g
    case Multi(ps) => |ps|
    case Single(_) => 1
  }

  function RowOf(l: Lot, b: Option<real>): LotRow
  {
    LotRow(l.id, l.geometry, TotalLotArea(l.geometry), NumLots(l.geometry), b)
  }

  predicate UniqueIds(bs: seq<Boundary>)
  {
    forall i, j :: 0 <= i < j < |bs| ==> bs[i].id != bs[j].id
  }

  /** The boundary areas of the boundaries carrying this id, in the order of the
      boundaries. */
  function MatchingAreas(id: string, bs: seq<Boundary>): (r: seq<real>)
    ensures |r| == 0 <==> forall j :: 0 <= j < |bs| ==> bs[j].id != id
  {
    if |bs| == 0 then []
    else (if bs[0].id == id then [bs[0].boundaryArea] else []) + MatchingAreas(id, bs[1..])
  }

  /** Each matching area comes from a boundary with the id. */
  lemma {:induction false} MatchingAreasFrom(id: string, bs: seq<Boundary>)
    ensures forall a :: a in MatchingAreas(id, bs) ==> Boundary(id, a) in bs
  {
    if |bs| > 0 {
      MatchingAreasFrom(id, bs[1..]);
      forall a | a in MatchingAreas(id, bs) ensures Boundary(id, a) in bs {
        if a !in MatchingAreas(id, bs[1..]) {
          assert bs[0] == Boundary(id, a);
        } else {
          assert Boundary(id, a) in bs[1..];
        }
      }
    }
  }

  /** With unique boundary ids a lot has at most one match, and it is the first. */
  lemma {:induction false} MatchingAreasUnique(id: string, bs: seq<Boundary>)
    requires UniqueIds(bs)
    ensures |MatchingAreas(id, bs)| <= 1
  {
    if |bs| > 0 {
      assert UniqueIds(bs[1..]);
      MatchingAreasUnique(id, bs[1..]);
      if bs[0].id == id {
        assert forall j :: 0 <= j < |bs[1..]| ==> bs[1..][j].id != id;
      }
    }
  }

  /** The rows one lot contributes to the left join: one per matching boundary, or one
      with a missing boundary area when there is none. */
  function JoinLot(l: Lot, bs: seq<Boundary>): (r: seq<LotRow>)
    ensures |r| >= 1
  {
    var ms := MatchingAreas(l.id, bs);
    if |ms| == 0 then [RowOf(l, None)]
    else seq(|ms|, k requires 0 <= k < |ms| => RowOf(l, Some(ms[k])))
  }

  /** `lots.merge(boundaries, on='id', how='left')` followed by the renaming of `id` to
      `city`: the lots in order, each followed by its matches. */
  function LeftJoin(lots: seq<Lot>, bs: seq<Boundary>): (r: seq<LotRow>)
    ensures |r| >= |lots|
  {
    if |lots| == 0 then [] else JoinLot(lots[0], bs) + LeftJoin(lots[1..], bs)
  }

  /** The boundary area of the first boundary with this id, if any. */
  function Lookup(id: string, bs: seq<Boundary>): (r: Option<real>)
    ensures r.None? <==> forall j :: 0 <= j < |bs| ==> bs[j].id != id
    ensures r.Some? ==> exists j :: 0 <= j < |bs| && bs[j] == Boundary(id, r.value)
  {
    if |bs| == 0 then None
    else if bs[0].id == id then Some(bs[0].boundaryArea)
    else
      var r := Lookup(id, bs[1..]);
      assert r.Some? ==> exists j :: 0 <= j < |bs[1..]| && bs[1..][j] == Boundary(id, r.value);
      r
  }

  lemma {:induction false} MatchingAreasLookup(id: string, bs: seq<Boundary>)
    requires |MatchingAreas(id, bs)| > 0
    ensures Lookup(id, bs) == Some(MatchingAreas(id, bs)[0])
  {
    if bs[0].id != id {
      MatchingAreasLookup(id, bs[1..]);
    }
  }

  /** Every row of the join is a row of some lot, carrying a boundary area only when a
      boundary with that lot's id exists, and that boundary's area; none otherwise. */
  lemma {:induction false} LeftJoinRows(lots: seq<Lot>, bs: seq<Boundary>)
    ensures forall k :: 0 <= k < |LeftJoin(lots, bs)| ==>
      var row: LotRow := LeftJoin(lots, bs)[k];
      (exists i :: 0 <= i < |lots| && row == RowOf(lots[i], row.boundaryArea)) &&
      (row.boundaryArea.None? <==> forall j :: 0 <= j < |bs| ==> bs[j].id != row.city) &&
      (row.boundaryArea.Some? ==> Boundary(row.city, row.boundaryArea.value) in bs)
  {
    if |lots| > 0 {
      LeftJoinRows(lots[1..], bs);
      var head, tail := JoinLot(lots[0], bs), LeftJoin(lots[1..], bs);
      forall k | 0 <= k < |head + tail|
        ensures var row: LotRow := (head + tail)[k];
          (exists i :: 0 <= i < |lots| && row == RowOf(lots[i], row.boundaryArea)) &&
          (row.boundaryArea.None? <==> forall j :: 0 <= j < |bs| ==> bs[j].id != row.city) &&
          (row.boundaryArea.Some? ==> Boundary(row.city, row.boundaryArea.value) in bs)
      {
        if k < |head| {
          assert (head + tail)[k] == head[k];
          JoinLotRow(lots[0], bs, k);
        } else {
          var row := tail[k - |head|];
          assert (head + tail)[k] == row;
          var i :| 0 <= i < |lots[1..]| && row == RowOf(lots[1..][i], row.boundaryArea);
          assert lots[i + 1] == lots[1..][i];
        }
      }
    }
  }

  /** Row k of one lot's rows: that lot's row, with a boundary area exactly when a
      boundary carries the lot's id, and then the area of such a boundary. */
  lemma {:induction false} JoinLotRow(l: Lot, bs: seq<Boundary>, k: int)
    requires 0 <= k < |JoinLot(l, bs)|
    ensures var row: LotRow := JoinLot(l, bs)[k];
      row == RowOf(l, row.boundaryArea) &&
      (row.boundaryArea.None? <==> forall j :: 0 <= j < |bs| ==> bs[j].id != l.id) &&
      (row.boundaryArea.Some? ==> Boundary(l.id, row.boundaryArea.value) in bs)
  {
    var ms := MatchingAreas(l.id, bs);
    if |ms| > 0 {
      MatchingAreasFrom(l.id, bs);
      assert ms[k] in ms;
    }
  }

  /** When boundary ids are unique the join keeps the lots one for one, in order, and
      gives each the area of the boundary with its id, or none when there is no such
      boundary. */
  lemma {:induction false} LeftJoinUnique(lots: seq<Lot>, bs: seq<Boundary>)
    requires UniqueIds(bs)
    ensures |LeftJoin(lots, bs)| == |lots|
    ensures forall i :: 0 <= i < |lots| ==> LeftJoin(lots, bs)[i] == RowOf(lots[i], Lookup(lots[i].id, bs))
  {
    if |lots| > 0 {
      LeftJoinUnique(lots[1..], bs);
      MatchingAreasUnique(lots[0].id, bs);
      var ms := MatchingAreas(lots[0].id, bs);
      if |ms| == 1 {
        MatchingAreasLookup(lots[0].id, bs);
      }
      var head, tail := JoinLot(lots[0], bs), LeftJoin(lots[1..], bs);
      assert head == [RowOf(lots[0], Lookup(lots[0].id, bs))];
      forall i | 0 <= i < |lots| ensures (head + tail)[i] == RowOf(lots[i], Lookup(lots[i].id, bs)) {
        if i > 0 {
          assert (head + tail)[i] == tail[i - 1];
          assert lots[1..][i - 1] == lots[i];
        }
      }
    }
  }

  /** Pandas division of a value by a column entry: missing when the entry is missing
      (NaN) or zero (which pandas turns into an infinity or NaN). */
  function Divide(num: real, den: Option<real>): (r: Option<real>)
    ensures r.Some? <==> den.Some? && den.value != 0.0
    ensures r.Some? ==> r.value * den.value == num
  {
    if den.None? || den.value == 0.0 then None else Some(num / den.value)
  }

  /** `pct_lot_area`: the share of the region's boundary area taken by its lots. */
  function PctLotArea(row: LotRow): (r: Option<real>)
    ensures r.Some? <==> row.boundaryArea.Some? && row.boundaryArea.value != 0.0
    ensures r.Some? ==> r.value * row.boundaryArea.value == row.totalLotArea
  {
    Divide(row.totalLotArea, row.boundaryArea)
  }

  /** When the lots of a region cover no more than its boundary area, their share lies
      between 0 and 1. */
  lemma {:induction false} PctLotAreaShare(row: LotRow)
    requires row.boundaryArea.Some? && 0.0 <= row.totalLotArea <= row.boundaryArea.value
    requires row.boundaryArea.value > 0.0
    ensures PctLotArea(row).Some? && 0.0 <= PctLotArea(row).value <= 1.0
  {
    ShareBounds(PctLotArea(row).value, row.boundaryArea.value, row.totalLotArea);
  }

  lemma {:induction false} ShareBounds(p: real, b: real, t: real)
    requires b > 0.0 && p * b == t && 0.0 <= t <= b
    ensures 0.0 <= p <= 1.0
  {
    assert p == t / b;
  }

  /** `lots_per_sq_km` as written: `1000 * num_lots / boundary_area`. */
  function LotsPerSqKm(row: LotRow): (r: Option<real>)
    ensures r.Some? <==> row.boundaryArea.Some? && row.boundaryArea.value != 0.0
    ensures r.Some? ==> r.value * row.boundaryArea.value == 1000.0 * row.numLots as real
  {
    Divide(1000.0 * row.numLots as real, row.boundaryArea)
  }

  /** The number of lots per square kilometre, the quantity the column is named after: a
      square kilometre is 1,000,000 square metres. */
  function LotsPerSquareKilometre(row: LotRow): (r: Option<real>)
    ensures r.Some? <==> row.boundaryArea.Some? && row.boundaryArea.value != 0.0
    ensures r.Some? ==> r.value * (row.boundaryArea.value / 1000000.0) == row.numLots as real
  {
    Divide(1000000.0 * row.numLots as real, row.boundaryArea)
  }

  /** The column as written is the number of lots per square kilometre divided by 1000. */
  lemma {:induction false} LotsPerSqKmScale(row: LotRow)
    ensures LotsPerSqKm(row).Some? <==> LotsPerSquareKilometre(row).Some?
    ensures LotsPerSqKm(row).Some? ==>
      LotsPerSqKm(row).value * 1000.0 == LotsPerSquareKilometre(row).value
  {
  }

  /** One lot in a region of exactly one square kilometre: the column reads 0.001. */
  lemma {:induction false} LotsPerSqKmOneSquareKilometre()
    ensures var row := LotRow("c", Single(Polygon(10.0, 0.0)), 10.0, 1, Some(1000000.0));
      LotsPerSqKm(row) == Some(0.001) && LotsPerSquareKilometre(row) == Some(1.0)
  {
  }

  /** `avg_lot_area`: the mean area of the parts of a MultiPolygon (NaN when it has none),
      or the area of a polygon, divided by 1000. */
  function AvgLotArea(g: LotGeometry): (r: Option<real>)
    ensures r.None? <==> NumLots(g) == 0
    ensures r.Some? ==> r.value * 1000.0 * NumLots(g) as real == TotalLotArea(g)
  {
    match g
    case Single(p) =>
      Some(p.area / 1000.0)
    case Multi(ps) =>
      if |ps| == 0 then None
      else
        var mean := Sum(Areas(ps)) / |ps| as real;
        MeanTimesCount(Sum(Areas(ps)), |ps| as real, mean);
        Some(mean / 1000.0)
  }

  lemma {:induction false} MeanTimesCount(total: real, n: real, mean: real)
    requires n > 0.0 && mean == total / n
    ensures mean / 1000.0 * 1000.0 * n == total
  {
    assert mean / 1000.0 * 1000.0 == mean;
  }

  /** The `gini_coef` entry of a row: the coefficient of the part areas of a
      MultiPolygon, and 0.0 for a polygon, which is also the coefficient of its one
      area. */
  function GiniColumn(g: LotGeometry): (r: real)
    ensures r == GiniCoefficient(Areas(Constituents(g)))
    ensures g.Single? ==> r == 0.0
  {
    if g.Multi? then GiniCoefficient(Areas(g.parts)) else 0.0
  }

  /** With non-negative areas and some lot area, the entry lies in [0, 1). */
  lemma {:induction false} GiniColumnBounds(g: LotGeometry)
    requires Nonnegative(Areas(Constituents(g))) && TotalLotArea(g) > 0.0
    ensures 0.0 <= GiniColumn(g) < 1.0
  {
    GiniBounds(Areas(Constituents(g)));
  }

  /** The `orientation_entropy` entry of a row: the entropy of the parts of a
      MultiPolygon over the default 36 bins, and 0.0 for a polygon. */
  function EntropyColumn(g: LotGeometry): (r: Entropy)
    ensures r == OrientationEntropy(Constituents(g), DefaultBins)
    ensures r.EntropyOf? <==> NumLots(g) > 1
  {
    if g.Multi? then OrientationEntropy(g.parts, DefaultBins) else ZeroEntropy
  }

  /** One element of the `orientation_entropy` comprehension, computed by
      `calculate_orientation_entropy` for a MultiPolygon. */
  method RowEntropy(g: LotGeometry) returns (e: Entropy)
    ensures e == EntropyColumn(g)
  {
    e := ZeroEntropy;
    if g.Multi? {
      e := CalculateOrientationEntropy(g.parts, DefaultBins);
    }
  }

  /** A region with two lots or more gets a histogram that counts each lot once. */
  lemma {:induction false} EntropyColumnCounts(g: LotGeometry)
    ensures NumLots(g) > 1 ==> Total(EntropyColumn(g).counts) == NumLots(g)
  {
    if NumLots(g) > 1 {
      OrientationEntropyCounts(Constituents(g), DefaultBins);
    }
  }

  /** A region "A" of two lots of 100 and 300 square metres, at 0 and 45 degrees. */
  const RegionA: Lot := Lot("A", Multi([Polygon(100.0, 0.0), Polygon(300.0, 45.0)]))

  /** A region "B" of one lot of 50 square metres. */
  const RegionB: Lot := Lot("B", Single(Polygon(50.0, 10.0)))

  /** Only region "A" has a boundary, of one square kilometre: "A" gets its area and "B"
      none. */
  lemma {:induction false} TwoRegionJoin()
    ensures LeftJoin([RegionA, RegionB], [Boundary("A", 1000000.0)]) ==
      [RowOf(RegionA, Some(1000000.0)), RowOf(RegionB, None)]
  {
    var bs := [Boundary("A", 1000000.0)];
    LeftJoinUnique([RegionA, RegionB], bs);
    assert Lookup("A", bs) == Some(1000000.0);
    assert Lookup("B", bs) == None;
  }

  /** The features of region "A": 0.04% of its boundary is parking, 0.002 in the lots per
      square kilometre column, a mean lot area of 0.2 thousand square metres and a Gini
      coefficient of 0.25. */
  lemma {:induction false} RegionAFeatures()
    ensures var row := RowOf(RegionA, Some(1000000.0));
      row.totalLotArea == 400.0 && row.numLots == 2 &&
      PctLotArea(row) == Some(0.0004) && LotsPerSqKm(row) == Some(0.002) &&
      AvgLotArea(row.geometry) == Some(0.2) && GiniColumn(row.geometry) == 0.25
  {
    var g := RegionA.geometry;
    assert Areas(g.parts) == [100.0, 300.0];
    assert Sum([100.0, 300.0]) == 400.0 by {
      assert [100.0, 300.0][1..] == [300.0];
      assert [300.0][1..] == [];
    }
    assert TotalLotArea(g) == 400.0;
    var row := RowOf(RegionA, Some(1000000.0));
    assert row.totalLotArea == 400.0 && row.numLots == 2;
    assert PctLotArea(row) == Some(400.0 / 1000000.0);
    assert LotsPerSqKm(row) == Some(2000.0 / 1000000.0);
    assert AvgLotArea(g) == Some(400.0 / 2.0 / 1000.0);
    GiniTwoLots();
  }

  /** Without a boundary, region "B" has no area share. */
  lemma {:induction false} RegionBFeatures()
    ensures var row := RowOf(RegionB, None);
      PctLotArea(row).None? && LotsPerSqKm(row).None? &&
      AvgLotArea(row.geometry) == Some(0.05) && GiniColumn(row.geometry) == 0.0
  {
  }

  /** The `gini_coef` column for the rows. */
  function GiniColumns(rs: seq<LotRow>): (c: seq<real>)
    ensures |c| == |rs|
    ensures forall i :: 0 <= i < |rs| ==> c[i] == GiniColumn(rs[i].geometry)
  {
    if |rs| == 0 then []
    else
      var init := rs[..|rs| - 1];
      assert forall i :: 0 <= i < |init| ==> init[i] == rs[i];
      GiniColumns(init) + [GiniColumn(rs[|rs| - 1].geometry)]
  }

  /** The `orientation_entropy` column for the rows. */
  function EntropyColumns(rs: seq<LotRow>): (c: seq<Entropy>)
    ensures |c| == |rs|
    ensures forall i :: 0 <= i < |rs| ==> c[i] == EntropyColumn(rs[i].geometry)
  {
    if |rs| == 0 then []
    else
      var init := rs[..|rs| - 1];
      assert forall i :: 0 <= i < |init| ==> init[i] == rs[i];
      EntropyColumns(init) + [EntropyColumn(rs[|rs| - 1].geometry)]
  }

  /** The entries of the `gini_coef` and `orientation_entropy` columns, row by row. */
  method ShapeStatistics(rs: seq<LotRow>) returns (ginis: seq<real>, entropies: seq<Entropy>)
    ensures ginis == GiniColumns(rs) && entropies == EntropyColumns(rs)
  {
    ginis, entropies := [], [];
    var i := 0;
    while i < |rs|
      invariant 0 <= i <= |rs|
      invariant ginis == GiniColumns(rs[..i]) && entropies == EntropyColumns(rs[..i])
    {
      assert rs[..i + 1][..i] == rs[..i];
      var g := rs[i].geometry;
      var e := RowEntropy(g);
      ginis := ginis + [GiniColumn(g)];
      entropies := entropies + [e];
      i := i + 1;
    }
    assert rs[..i] == rs;
  }

  /** The lot feature table, whose columns are added in place. A column that has not been
      added yet is None. */
  class LotFrame {
    var rows: seq<LotRow>
    var pctLotArea: Option<seq<Option<real>>>
    var lotsPerSqKm: Option<seq<Option<real>>>
    var avgLotArea: Option<seq<Option<real>>>
    var giniCoef: Option<seq<real>>
    var orientationEntropy: Option<seq<Entropy>>

    /** `load_lot_data`: the join of the lots to the boundaries, without the added
        columns. */
    constructor Load(lots: seq<Lot>, bs: seq<Boundary>)
      ensures rows == LeftJoin(lots, bs)
      ensures pctLotArea.None? && lotsPerSqKm.None? && avgLotArea.None?
      ensures giniCoef.None? && orientationEntropy.None?
    {
      rows := LeftJoin(lots, bs);
      pctLotArea, lotsPerSqKm, avgLotArea := None, None, None;
      giniCoef, orientationEntropy := None, None;
    }

    /** `add_geo_features`: adds the three columns to this table and returns it. */
    method AddGeoFeatures() returns (r: LotFrame)
      modifies this
      ensures r == this
      ensures rows == old(rows)
      ensures giniCoef == old(giniCoef) && orientationEntropy == old(orientationEntropy)
      ensures pctLotArea.Some? && |pctLotArea.value| == |rows|
      ensures forall i :: 0 <= i < |rows| ==> pctLotArea.value[i] == PctLotArea(rows[i])
      ensures lotsPerSqKm.Some? && |lotsPerSqKm.value| == |rows|
      ensures forall i :: 0 <= i < |rows| ==> lotsPerSqKm.value[i] == LotsPerSqKm(rows[i])
      ensures avgLotArea.Some? && |avgLotArea.value| == |rows|
      ensures forall i :: 0 <= i < |rows| ==> avgLotArea.value[i] == AvgLotArea(rows[i].geometry)
    {
      var rs := rows;
      pctLotArea := Some(seq(|rs|, i requires 0 <= i < |rs| => PctLotArea(rs[i])));
      lotsPerSqKm := Some(seq(|rs|, i requires 0 <= i < |rs| => LotsPerSqKm(rs[i])));
      avgLotArea := Some(seq(|rs|, i requires 0 <= i < |rs| => AvgLotArea(rs[i].geometry)));
      r := this;
    }

    /** The two list comprehensions of `main` that add `gini_coef` and
        `orientation_entropy`, one entry per row. */
    method AddShapeStatistics()
      modifies this
      ensures rows == old(rows)
      ensures pctLotArea == old(pctLotArea) && lotsPerSqKm == old(lotsPerSqKm)
      ensures avgLotArea == old(avgLotArea)
      ensures giniCoef.Some? && |giniCoef.value| == |rows|
      ensures forall i :: 0 <= i < |rows| ==> giniCoef.value[i] == GiniColumn(rows[i].geometry)
      ensures orientationEntropy.Some? && |orientationEntropy.value| == |rows|
      ensures forall i :: 0 <= i < |rows| ==>
        orientationEntropy.value[i] == EntropyColumn(rows[i].geometry)
    {
      var ginis, entropies := ShapeStatistics(rows);
      giniCoef := Some(ginis);
      orientationEntropy := Some(entropies);
    }
  }

  /** `main` up to the writing of the output file: load, add the geographic features,
      then the Gini coefficient and orientation entropy columns. */
  method BuildLotFeatures(lots: seq<Lot>, bs: seq<Boundary>) returns (frame: LotFrame)
    ensures fresh(frame)
    ensures frame.rows == LeftJoin(lots, bs)
    ensures frame.pctLotArea.Some? && frame.lotsPerSqKm.Some? && frame.avgLotArea.Some?
    ensures frame.giniCoef.Some? && frame.orientationEntropy.Some?
    ensures |frame.pctLotArea.value| == |frame.lotsPerSqKm.value| == |frame.avgLotArea.value| ==
      |frame.giniCoef.value| == |frame.orientationEntropy.value| == |frame.rows|
    ensures forall i :: 0 <= i < |frame.rows| ==>
      frame.pctLotArea.value[i] == PctLotArea(frame.rows[i]) &&
      frame.lotsPerSqKm.value[i] == LotsPerSqKm(frame.rows[i]) &&
      frame.avgLotArea.value[i] == AvgLotArea(frame.rows[i].geometry) &&
      frame.giniCoef.value[i] == GiniColumn(frame.rows[i].geometry) &&
      frame.orientationEntropy.value[i] == EntropyColumn(frame.rows[i].geometry)
  {
    var initial := new LotFrame.Load(lots, bs);
    frame := initial.AddGeoFeatures();
    frame.AddShapeStatistics();
  }
}
