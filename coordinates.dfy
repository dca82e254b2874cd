/** The coordinates member of a GeoJSON geometry, and the recursive flattening that keeps
    only X and Y of every position (`flatten_coords` in data_processing/lot_retrieval.py). */
module Coordinates {

  /** A JSON value as it can occur inside a coordinates member: a number or a list. */
  datatype Coords = Num(x: real) | Arr(items: seq<Coords>)

  function Min(a: int, b: int): int { if a <= b then a else b }

  /** A list whose first element is a number is a position (X, Y and possibly Z, M, ...). */
  predicate IsPosition(c: Coords)
  {
    c.Arr? && |c.items| > 0 && c.items[0].Num?
  }

  /** The inputs on which `flatten_coords` returns: it indexes `coords[0]` of every list it
      visits, so each visited value is a non-empty list, and a list that is not a position
      has every element visited in turn. */
  predicate Flattenable(c: Coords)
  {
    c.Arr? && |c.items| > 0 &&
    (c.items[0].Num? || forall i :: 0 <= i < |c.items| ==> Flattenable(c.items[i]))
  }

  /** Already flat: every position reached has at most two entries. */
  predicate Flat(c: Coords)
  {
    c.Arr? && |c.items| > 0 &&
    if c.items[0].Num? then |c.items| <= 2
    else forall i :: 0 <= i < |c.items| ==> Flat(c.items[i])
  }

  /** `flatten_coords`: a position keeps its first two entries, any other list is
      flattened element by element. */
  function Flatten(c: Coords): (r: Coords)
    requires Flattenable(c)
    ensures r.Arr? && |r.items| > 0
    ensures IsPosition(c) ==> r.items <= c.items && |r.items| == Min(2, |c.items|)
    ensures !IsPosition(c) ==> |r.items| == |c.items|
    ensures !IsPosition(c) ==> forall i :: 0 <= i < |c.items| ==> r.items[i] == Flatten(c.items[i])
    ensures Flat(r)
  {
    if c.items[0].Num? then
      Arr(c.items[..Min(2, |c.items|)])
    else
      Arr(seq(|c.items|, i requires 0 <= i < |c.items| => Flatten(c.items[i])))
  }

  /** A flat value is a flattenable one. */
  lemma {:induction false} FlatIsFlattenable(c: Coords)
    requires Flat(c)
    ensures Flattenable(c)
  {
    if !c.items[0].Num? {
      forall i | 0 <= i < |c.items| ensures Flattenable(c.items[i]) {
        FlatIsFlattenable(c.items[i]);
      }
    }
  }

  /** Flattening leaves a flat value as it is. */
  lemma {:induction false} FlattenFlat(c: Coords)
    requires Flat(c)
    ensures Flattenable(c) && Flatten(c) == c
  {
    FlatIsFlattenable(c);
    if !c.items[0].Num? {
      forall i | 0 <= i < |c.items| ensures Flatten(c.items[i]) == c.items[i] {
        FlattenFlat(c.items[i]);
      }
      assert Flatten(c).items == c.items;
    }
  }

  /** The values that flattening leaves unchanged are exactly the flat ones. */
  lemma {:induction false} FlattenFixedPoint(c: Coords)
    requires Flattenable(c)
    ensures Flatten(c) == c <==> Flat(c)
  {
    if Flat(c) {
      FlattenFlat(c);
    }
  }

  /** `flatten_coords` is idempotent. */
  lemma {:induction false} FlattenIdempotent(c: Coords)
    requires Flattenable(c)
    ensures Flattenable(Flatten(c)) && Flatten(Flatten(c)) == Flatten(c)
  {
    FlattenFlat(Flatten(c));
  }

  /** A three-dimensional position loses its Z. */
  lemma {:induction false} FlattenDropsZ(x: real, y: real, z: real)
    ensures Flatten(Arr([Num(x), Num(y), Num(z)])) == Arr([Num(x), Num(y)])
  {
  }
}
