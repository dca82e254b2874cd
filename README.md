# Parking-lot features, modelled in Dafny

This project models the two parts of the parking-lot pipeline that hold real logic.

**Coordinate flattening.** `data_processing/lot_retrieval.py` defines `flatten_coords` and `flatten_geojson`, which turn X,Y,Z coordinates into X,Y ones.
- `Coordinates` models `flatten_coords` as a function on a JSON-like datatype. `Coords` is `Num(real) | Arr(seq<Coords>)`.
- `GeoJson` models `flatten_geojson` two ways.
  - As a value: the function `FlattenObject` on an `Object` record.
  - As the in-place walk the source performs: the class `GeoObject`, whose `coordinates` field is reassigned and whose children are other `GeoObject`s. Its ghost `Model` is the object's value, and `Repr` is the set of objects in the tree below it.

**Lot feature engineering.** `data_processing/lot_engineering.py` computes per-region features.
- Inputs: every polygon is reduced to its area and the angle of the first edge of its minimum rotated rectangle (`Geometry`). Both are given real numbers.
- `Gini`: `gini_coefficient`.
- `Orientation`:
  - the `% 90` reduction of `get_orientation`;
  - the guard of `calculate_orientation_entropy`;
  - its 36-bin histogram, computed by a counting loop over an array.
- `LotFeatures`:
  - `load_lot_data`: the lot areas, the `num_lots` rule, and the left join that renames `id` to `city`;
  - `add_geo_features`: the three columns it adds;
  - `main`: the `gini_coef` and `orientation_entropy` columns.

  The feature table is the class `LotFrame`. Its columns are fields that the methods assign in place. A column that has not been added yet is `None`.

All arithmetic is exact real arithmetic. `Option` stands for pandas' missing values:
- `None` for NaN, such as the boundary area of a lot without a matching boundary;
- `None` for the result of dividing by a zero area.

Three behaviours of the code are worth noting:
- The join is `lots.merge(boundaries, on='id', how='left')`. It keeps every lot row, and a lot without a boundary gets a missing `boundary_area`. It does not keep every boundary.
- The geometry carried into the table is the lot geometry. The boundary geometry is dropped before the merge.
- `np.histogram(..., range=(0, 90))` counts a value of exactly 90 in the last bin.

## Model

| member | source | states |
|---|---|---|
| Coordinates.Flatten | data_processing/lot_retrieval.py:60-65 | A position (a list whose first entry is a number) becomes a prefix of itself of length min(2, len), so Z is dropped. Any other list keeps its length, with element i replaced by the flattening of element i. The result is always flat. |
| Coordinates.FlatIsFlattenable | data_processing/lot_retrieval.py:60-65 | Every already-flat value is inside the function's domain: non-empty lists all the way down. |
| Coordinates.FlattenFlat | data_processing/lot_retrieval.py:60-65 | A flat value is returned unchanged. |
| Coordinates.FlattenFixedPoint | data_processing/lot_retrieval.py:60-65 | `flatten_coords(c) == c` exactly when every position in `c` has at most two entries. |
| Coordinates.FlattenIdempotent | data_processing/lot_retrieval.py:60-65 | Flattening twice gives the same result as flattening once. |
| Coordinates.FlattenDropsZ | data_processing/lot_retrieval.py:60-61 | `[x, y, z]` becomes `[x, y]`. |
| GeoJson.FlattenObject | data_processing/lot_retrieval.py:79-91 | Per `type`, and the type itself never changes. For the six geometry types, only `coordinates` changes, to its flattening. A Feature changes only in its `geometry`, which is flattened. A FeatureCollection keeps its feature count and order, with feature i flattened. Any other type is returned unchanged. Every geometry reached in the result is flat. |
| GeoJson.FlattenFlatObject | data_processing/lot_retrieval.py:79-91 | An object whose geometries are all flat is walkable and left unchanged. |
| GeoJson.FlattenObjectIdempotent | data_processing/lot_retrieval.py:79-91 | A second `flatten_geojson` changes nothing. |
| GeoJson.GeoObject.FlattenInPlace | data_processing/lot_retrieval.py:67-91 | Returns the very object it was given. The object's new value is `FlattenObject` of its old value. Every object in the tree keeps its `type`, its `geometry` link, its `features` list and its footprint, so the walk only assigns `coordinates`. |
| GeoJson.GeoObject.FlattenCoordinates | data_processing/lot_retrieval.py:79-80 | A geometry's `coordinates` field is replaced by its flattening, and its other fields stay as they were. |
| GeoJson.GeoObject.FlattenGeometry | data_processing/lot_retrieval.py:83-84 | A Feature's value becomes the flattened one through the walk into its `geometry` object. No link in the tree changes. |
| GeoJson.GeoObject.FlattenFeatures | data_processing/lot_retrieval.py:87-89 | The loop over `features` flattens every feature in place. No link in the tree changes. |
| GeoJson.GeoObject.FlattenFeatureAt | data_processing/lot_retrieval.py:88-89 | One iteration: feature n is flattened, features before it stay flattened, and features after it are untouched. |
| GeoJson.FlattenPointExample | data_processing/lot_retrieval.py:67-91 | A FeatureCollection holding one Feature whose Point is `[x, y, z]`, walked in place, leaves that same Point object holding `[x, y]`. |
| Gini.Sort | data_processing/lot_engineering.py:83 | `np.sort` gives an ascending permutation of the values. |
| Gini.SortSum | data_processing/lot_engineering.py:83-84 | Sorting keeps the count and the sum. |
| Gini.SortedUnique | data_processing/lot_engineering.py:83 | Two ascending sequences with the same multiset of values are equal. |
| Gini.RankRatio | data_processing/lot_engineering.py:84-88 | The formula's value is the rank-weighted sum over n·Σx: multiplied by n·Σx it gives back the rank-weighted sum. |
| Gini.GiniCoefficient | data_processing/lot_engineering.py:79-81 | The result is 0.0 for at most one value or for values summing to 0. |
| Gini.GiniBounds | data_processing/lot_engineering.py:83-88 | For non-negative values with a positive sum: 0 <= gini <= (n-1)/n < 1. |
| Gini.GiniPositive | data_processing/lot_engineering.py:83-88 | For non-negative values with a positive sum, two different values make 0 < gini < 1. |
| Gini.GiniAllEqual | data_processing/lot_engineering.py:80-88 | Values that are all equal give exactly 0. |
| Gini.GiniOrderIndependent | data_processing/lot_engineering.py:83-88 | The result depends only on the multiset of values, not on their order. |
| Gini.GiniScaleInvariant | data_processing/lot_engineering.py:83-88 | Multiplying every value by a constant c > 0 leaves the result unchanged. |
| Gini.GiniTwoLots | data_processing/lot_engineering.py:83-88 | Areas 100 and 300, in either order, give 0.25. |
| Orientation.AngleMod90 | data_processing/lot_engineering.py:113 | Python's float `% 90` lies in [0, 90) and differs from the angle by a whole multiple of 90. |
| Orientation.AngleMod90Unique | data_processing/lot_engineering.py:113 | The reduction is the only value in [0, 90) that differs from the angle by a whole multiple of 90. |
| Orientation.AngleMod90Periodic | data_processing/lot_engineering.py:113 | Adding any whole multiple of 90 to the edge angle leaves the orientation unchanged. |
| Orientation.AngleMod90Fixed | data_processing/lot_engineering.py:113 | An angle already in [0, 90) is its own orientation. |
| Orientation.PolygonOrientation | data_processing/lot_engineering.py:113 | A polygon's orientation lies in [0, 90) and differs from its edge angle by a whole multiple of 90. |
| Orientation.Orientations | data_processing/lot_engineering.py:131 | One angle per polygon, in order, each being that polygon's reduced edge angle. |
| Orientation.BinOf | data_processing/lot_engineering.py:134 | A value is counted exactly when it lies in [0, 90]. It falls in the bin k < bins whose edges 90k/bins <= v < 90(k+1)/bins enclose it. The value 90 falls in the last bin. |
| Orientation.HistogramOf | data_processing/lot_engineering.py:134 | `bins` counts, count k being the number of values whose bin is k. |
| Orientation.HistogramTotal | data_processing/lot_engineering.py:134 | When every value lies in [0, 90], the counts add up to the number of values. |
| Orientation.HistogramOneBin | data_processing/lot_engineering.py:134 | Values that all fall in one bin put every count there and 0 everywhere else. |
| Orientation.Histogram | data_processing/lot_engineering.py:134 | The counting pass over an array of `bins` counters yields exactly the histogram. |
| Orientation.OrientationEntropy | data_processing/lot_engineering.py:117-134 | A histogram is produced exactly when there are two polygons or more, and it then has `bins` counts. |
| Orientation.OrientationEntropyCounts | data_processing/lot_engineering.py:127-134 | With two polygons or more, the histogram's counts add up to the number of polygons. |
| Orientation.OrientationEntropyAligned | data_processing/lot_engineering.py:131-134 | Polygons sharing one orientation fill one bin and leave the rest empty, which is the zero-entropy distribution. |
| Orientation.OrientationEntropyQuarterTurns | data_processing/lot_engineering.py:113-134 | Turning any polygons by whole quarter turns leaves the result unchanged. |
| Orientation.CalculateOrientationEntropy | data_processing/lot_engineering.py:117-134 | For fewer than two polygons the result is the 0.0 case. Otherwise it is the histogram of the orientations, with `bins` counts totalling the number of polygons. |
| Geometry.Constituents | data_processing/lot_engineering.py:155-162 | The polygons `geom.geoms` yields, in order, or the polygon itself. Only a MultiPolygon without parts has none. |
| LotFeatures.NumLots | data_processing/lot_engineering.py:36 | `num_lots` is the number of constituent polygons, the same sequence the Gini and entropy columns use, and 1 for a polygon. |
| LotFeatures.TotalLotArea | data_processing/lot_engineering.py:32 | The `total_lot_area` of a polygon is its own area. For non-negative part areas it is non-negative. |
| LotFeatures.MatchingAreas | data_processing/lot_engineering.py:39 | A lot has no match exactly when no boundary carries its id. |
| LotFeatures.MatchingAreasFrom | data_processing/lot_engineering.py:39 | Every matched area is the area of a boundary carrying the lot's id. |
| LotFeatures.MatchingAreasUnique | data_processing/lot_engineering.py:39 | With unique boundary ids, a lot has at most one match. |
| LotFeatures.JoinLot | data_processing/lot_engineering.py:39 | A left join never drops a lot: every lot contributes at least one row. |
| LotFeatures.Lookup | data_processing/lot_engineering.py:39 | The looked-up area is missing exactly when no boundary carries the id. Otherwise it is the area of a boundary with that id. |
| LotFeatures.LeftJoin | data_processing/lot_engineering.py:39-40 | A left join keeps every lot: there are at least as many rows as lots. |
| LotFeatures.LeftJoinRows | data_processing/lot_engineering.py:39-40 | Every row is some lot's row under `city`. Its boundary area is missing exactly when no boundary has that id, and otherwise comes from such a boundary. |
| LotFeatures.LeftJoinUnique | data_processing/lot_engineering.py:39-40 | With unique boundary ids, the join gives exactly one row per lot, in lot order, each carrying its boundary's area or a missing value. |
| LotFeatures.Divide | data_processing/lot_engineering.py:59 | The quotient is missing exactly when the denominator is missing or zero. Otherwise the quotient times the denominator is the numerator. |
| LotFeatures.PctLotArea | data_processing/lot_engineering.py:59 | `pct_lot_area` is missing exactly when the boundary area is missing or zero. Otherwise it times the boundary area is `total_lot_area`. |
| LotFeatures.PctLotAreaShare | data_processing/lot_engineering.py:59 | When the lots cover no more than the positive boundary area, `pct_lot_area` lies in [0, 1]. |
| LotFeatures.LotsPerSqKm | data_processing/lot_engineering.py:62 | `lots_per_sq_km` as written is missing exactly when the boundary area is missing or zero. Otherwise it times the boundary area is 1000·`num_lots`. |
| LotFeatures.LotsPerSquareKilometre | data_processing/lot_engineering.py:62 | The count per square kilometre: the result times the area in km² is `num_lots`. |
| LotFeatures.LotsPerSqKmScale | data_processing/lot_engineering.py:62 | `1000 * num_lots / boundary_area` is the number of lots per square kilometre divided by 1000, and both are missing in the same cases. |
| LotFeatures.LotsPerSqKmOneSquareKilometre | data_processing/lot_engineering.py:62 | One lot in one km² gives 0.001 in the column. |
| LotFeatures.AvgLotArea | data_processing/lot_engineering.py:65 | Missing exactly for a MultiPolygon without parts. Otherwise `avg_lot_area * 1000 * num_lots == total_lot_area`. |
| LotFeatures.GiniColumn | data_processing/lot_engineering.py:154-158 | The entry is the coefficient of the constituent areas: the 0.0 given to a polygon equals the coefficient of its single area. |
| LotFeatures.GiniColumnBounds | data_processing/lot_engineering.py:154-158 | For non-negative areas with some lot area, the entry lies in [0, 1). |
| LotFeatures.EntropyColumn | data_processing/lot_engineering.py:161-165 | The entry is the entropy result of the constituent polygons, the 0.0 given to a polygon being that of its one constituent. A row gets a histogram exactly when `num_lots` >= 2. |
| LotFeatures.RowEntropy | data_processing/lot_engineering.py:161-164 | One element of the comprehension: `calculate_orientation_entropy` of the parts of a MultiPolygon, and 0.0 for a polygon. |
| LotFeatures.EntropyColumnCounts | data_processing/lot_engineering.py:161-165 | For two lots or more, the row's histogram counts total `num_lots`. |
| LotFeatures.GiniColumns | data_processing/lot_engineering.py:154-158 | The `gini_coef` column has one entry per row, entry i belonging to row i. |
| LotFeatures.EntropyColumns | data_processing/lot_engineering.py:161-165 | The `orientation_entropy` column has one entry per row, entry i belonging to row i. |
| LotFeatures.ShapeStatistics | data_processing/lot_engineering.py:154-165 | Both columns have one entry per row, entry i belonging to row i. |
| LotFeatures.TwoRegionJoin | data_processing/lot_engineering.py:39-40 | Lots A and B with only A's boundary give A's row with that area, then B's row with a missing area. |
| LotFeatures.RegionAFeatures | data_processing/lot_engineering.py:59-65 | Lots of 100 and 300 m² in 1,000,000 m² give total 400, 2 lots, pct 0.0004, lots_per_sq_km 0.002, avg 0.2 and gini 0.25. |
| LotFeatures.RegionBFeatures | data_processing/lot_engineering.py:59-65 | A lot without a boundary has a missing pct and lots_per_sq_km. Its avg is area/1000 and its gini is 0.0. |
| LotFeatures.LotFrame.Load | data_processing/lot_engineering.py:32-42 | The table's rows are the left join, and no feature column is present yet. |
| LotFeatures.LotFrame.AddGeoFeatures | data_processing/lot_engineering.py:58-67 | Returns the same table. It adds `pct_lot_area`, `lots_per_sq_km` and `avg_lot_area`, one entry per row, and changes nothing else. |
| LotFeatures.LotFrame.AddShapeStatistics | data_processing/lot_engineering.py:154-165 | Adds `gini_coef` and `orientation_entropy`, one entry per row, and changes nothing else. |
| LotFeatures.BuildLotFeatures | data_processing/lot_engineering.py:148-165 | The final table has the joined rows and all five feature columns, entry i of each belonging to row i. |

## Left out

- Data acquisition in data_processing/lot_retrieval.py: `extract_geojson_from_js`, `retrieve_lots` and `main`. They use regular expressions, the `unicode_escape` codec, JSON parsing, HTTP requests and file writes.
- Geometry computed by the geometry library. These values are inputs to the model, not computed by it:
  - polygon area;
  - `minimum_rotated_rectangle`;
  - the reprojection to EPSG:5070;
  - the `arctan2`/`degrees` computation of the edge angle.
- Orientation.CalculateOrientationEntropy: stops at the histogram counts. `scipy.stats.entropy` and the division by `log(bins)` are transcendental floating-point computations, so the [0, 1] bound on the entropy is not stated.
- LotFeatures.Divide: pandas gives an infinity for a positive number divided by 0 and NaN for 0/0 or a NaN operand. The model collapses all of these into `None`, so it does not tell an infinity from NaN.
- LotFeatures.AvgLotArea: `np.mean` of an empty MultiPolygon is NaN, which is `None` here. The runtime warning numpy prints is not modelled.
- Orientation.AngleMod90: exact reals. The floating-point case where `x % 90` rounds up to 90.0 does not occur in the model.
- Floating-point rounding in general: every quantity is an exact real.
- Coordinates.Flatten: JSON values other than numbers and lists (strings, booleans, objects, null) are not represented inside a coordinates member. A list that would make the source raise (an empty list, or a non-list reached below a list whose first entry is a list) is outside the precondition.
- GeoJson.Object: only the members the walk reads (`type`, `coordinates`, `geometry`, `features`) are represented. The walk leaves every other member untouched. Inputs on which the source raises (a missing member, a Feature whose `geometry` is null) are outside the precondition.
- GeoJson.GeoObject: the objects form a tree, as a parsed JSON document does. Sharing of one dictionary between two places in a document is not modelled.
- `load_lot_data` file reading with `gpd.read_file`, and the `DataSourceError` handler that prints a message and returns nothing.
- Boundary columns other than `boundary_area`, and the suffixes pandas adds to clashing column names in the merge.
- Writing `lot_features.geojson` in `main`.
- data_processing/mode_share_retrieval.py and data_processing/walkability_retrieval.py are not part of this model. They load CSV files, shapefiles and geodatabases, perform a spatial join and write files.
