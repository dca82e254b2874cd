/** `flatten_geojson` in data_processing/lot_retrieval.py: a walk over a GeoJSON object
    (FeatureCollection, Feature, geometry) that replaces the coordinates member of every
    geometry by its flattened form, in place, and returns the object it was given. */
module GeoJson {
  import opened Wrappers
  import opened Coordinates

  /** The `type` values whose `coordinates` member is flattened. */
  const GeometryKinds: set<string> :=
    {"Polygon", "MultiPolygon", "LineString", "MultiLineString", "Point", "MultiPoint"}

  /** The value of a GeoJSON object: its `type` and the three members the walk reads.
      An absent member is None or NoFeatures; a `geometry` of JSON null is None as well.
      Every other member is left alone by the walk and is not represented. */
  datatype Object = Object(
    kind: string,
    coordinates: Option<Coords>,
    geometry: Option<Object>,
    features: FeatureList)

  /** The `features` member: absent, or a list of objects. */
  datatype FeatureList = NoFeatures | Features(list: seq<Object>)

  /** The inputs on which the walk returns instead of raising: a geometry has flattenable
      coordinates, a Feature has a geometry object, a FeatureCollection has a features list
      all of whose members qualify. */
  predicate Walkable(g: Object)
  {
    if g.kind in GeometryKinds then
      g.coordinates.Some? && Flattenable(g.coordinates.value)
    else if g.kind == "Feature" then
      g.geometry.Some? && Walkable(g.geometry.value)
    else if g.kind == "FeatureCollection" then
      g.features.Features? && forall i :: 0 <= i < |g.features.list| ==> Walkable(g.features.list[i])
    else
      true
  }

  /** Every geometry reached by the walk has flat coordinates. */
  predicate FlatObject(g: Object)
  {
    if g.kind in GeometryKinds then
      g.coordinates.Some? && Flat(g.coordinates.value)
    else if g.kind == "Feature" then
      g.geometry.Some? && FlatObject(g.geometry.value)
    else if g.kind == "FeatureCollection" then
      g.features.Features? && forall i :: 0 <= i < |g.features.list| ==> FlatObject(g.features.list[i])
    else
      true
  }

  /** The value of the object after `flatten_geojson`. */
  function FlattenObject(g: Object): (r: Object)
    requires Walkable(g)
    ensures r.kind == g.kind
    ensures g.kind in GeometryKinds ==>
      r == g.(coordinates := Some(Flatten(g.coordinates.value)))
    ensures g.kind == "Feature" ==>
      r == g.(geometry := Some(FlattenObject(g.geometry.value)))
    ensures g.kind == "FeatureCollection" ==>
      r.coordinates == g.coordinates && r.geometry == g.geometry &&
      r.features.Features? && |r.features.list| == |g.features.list| &&
      forall i :: 0 <= i < |g.features.list| ==>
        r.features.list[i] == FlattenObject(g.features.list[i])
    ensures g.kind !in GeometryKinds && g.kind != "Feature" && g.kind != "FeatureCollection" ==>
      r == g
    ensures FlatObject(r)
  {
    if g.kind in GeometryKinds then
      g.(coordinates := Some(Flatten(g.coordinates.value)))
    else if g.kind == "Feature" then
      g.(geometry := Some(FlattenObject(g.geometry.value)))
    else if g.kind == "FeatureCollection" then
      var fs := g.features.list;
      g.(features := Features(seq(|fs|, i requires 0 <= i < |fs| => FlattenObject(fs[i]))))
    else
      g
  }

  /** A flat object is walkable, and the walk leaves it unchanged. */
  lemma {:induction false} FlattenFlatObject(g: Object)
    requires FlatObject(g)
    ensures Walkable(g) && FlattenObject(g) == g
  {
    if g.kind in GeometryKinds {
      FlattenFlat(g.coordinates.value);
    } else if g.kind == "Feature" {
      FlattenFlatObject(g.geometry.value);
    } else if g.kind == "FeatureCollection" {
      var fs := g.features.list;
      forall i | 0 <= i < |fs| ensures Walkable(fs[i]) && FlattenObject(fs[i]) == fs[i] {
        FlattenFlatObject(fs[i]);
      }
      assert FlattenObject(g).features.list == fs;
    }
  }

  /** A second application of `flatten_geojson` changes nothing. */
  lemma {:induction false} FlattenObjectIdempotent(g: Object)
    requires Walkable(g)
    ensures Walkable(FlattenObject(g)) && FlattenObject(FlattenObject(g)) == FlattenObject(g)
  {
    FlattenFlatObject(FlattenObject(g));
  }

  /** A GeoJSON object as the mutable dictionary that `flatten_geojson` updates. `Model`
      is its value; `Repr` is the set of objects of the tree rooted here. Children own
      disjoint parts of the tree, as a parsed JSON document does. */
  class GeoObject {
    var kind: string
    var coordinates: Option<Coords>
    var geometry: GeoObject?
    var features: Option<seq<GeoObject>>

    ghost var Model: Object
    ghost var Repr: set<GeoObject>

    ghost predicate Valid()
      reads this, Repr
      decreases Repr
    {
      this in Repr &&
      Model.kind == kind && Model.coordinates == coordinates &&
      (geometry == null <==> Model.geometry.None?) &&
      (features.None? <==> Model.features.NoFeatures?) &&
      (geometry != null ==>
        geometry in Repr && geometry.Repr <= Repr && this !in geometry.Repr &&
        geometry.Valid() && Model.geometry.value == geometry.Model) &&
      (features.Some? ==>
        var fs := features.value;
        |Model.features.list| == |fs| &&
        (forall i :: 0 <= i < |fs| ==>
          fs[i] in Repr && fs[i].Repr <= Repr && this !in fs[i].Repr &&
          fs[i].Valid() && Model.features.list[i] == fs[i].Model) &&
        (forall i, j :: 0 <= i < j < |fs| ==> fs[i].Repr !! fs[j].Repr) &&
        (geometry != null ==> forall i :: 0 <= i < |fs| ==> geometry.Repr !! fs[i].Repr))
    }

    /** A geometry object `{"type": k, "coordinates": c}`. */
    constructor OfCoordinates(k: string, c: Coords)
      ensures Valid() && fresh(Repr)
      ensures kind == k && coordinates == Some(c) && geometry == null && features.None?
      ensures Model == Object(k, Some(c), None, NoFeatures)
    {
      kind, coordinates, geometry, features := k, Some(c), null, None;
      Model := Object(k, Some(c), None, NoFeatures);
      Repr := {this};
    }

    /** A Feature object `{"type": "Feature", "geometry": g}`. */
    constructor Feature(g: GeoObject)
      requires g.Valid()
      ensures Valid() && Repr == {this} + g.Repr
      ensures kind == "Feature" && geometry == g && features.None?
      ensures Model == Object("Feature", None, Some(g.Model), NoFeatures)
    {
      kind, coordinates, geometry, features := "Feature", None, g, None;
      Model := Object("Feature", None, Some(g.Model), NoFeatures);
      Repr := {this} + g.Repr;
    }

    /** A FeatureCollection object `{"type": "FeatureCollection", "features": fs}` over
        features that share no object. */
    constructor Collection(fs: seq<GeoObject>)
      requires forall i :: 0 <= i < |fs| ==> fs[i].Valid()
      requires forall i, j :: 0 <= i < j < |fs| ==> fs[i].Repr !! fs[j].Repr
      ensures Valid() && Repr == {this} + Footprint(fs)
      ensures kind == "FeatureCollection" && coordinates.None? && geometry == null && features == Some(fs)
      ensures Model.kind == "FeatureCollection" && Model.features.Features? &&
        |Model.features.list| == |fs| &&
        forall i :: 0 <= i < |fs| ==> Model.features.list[i] == fs[i].Model
    {
      kind, coordinates, geometry, features := "FeatureCollection", None, null, Some(fs);
      Model := Object("FeatureCollection", None, None,
        Features(seq(|fs|, i requires 0 <= i < |fs| reads fs => fs[i].Model)));
      Repr := {this} + Footprint(fs);
    }

    /** `flatten_geojson(self)`: only `coordinates` members are assigned, no object is
        added, removed or relinked, and the object given is the one returned. */
    method FlattenInPlace() returns (r: GeoObject)
      requires Valid() && Walkable(Model)
      modifies Repr
      ensures r == this
      ensures Valid() && Repr == old(Repr)
      ensures Model == FlattenObject(old(Model))
      ensures forall o :: o in Repr ==>
        o.kind == old(o.kind) && o.geometry == old(o.geometry) && o.features == old(o.features) &&
        o.Repr == old(o.Repr)
      decreases Repr, 2
    {
      if kind in GeometryKinds {
        FlattenCoordinates();
      } else if kind == "Feature" {
        FlattenGeometry();
      } else if kind == "FeatureCollection" {
        FlattenFeatures();
      }
      r := this;
    }

    /** A geometry: its `coordinates` member is replaced by the flattened value. */
    method FlattenCoordinates()
      requires Valid() && Model.kind in GeometryKinds && Walkable(Model)
      modifies this
      ensures Valid() && Repr == old(Repr)
      ensures Model == FlattenObject(old(Model))
      ensures kind == old(kind) && geometry == old(geometry) && features == old(features)
    {
      coordinates := Some(Flatten(coordinates.value));
      Model := FlattenObject(Model);
    }

    /** A Feature: the walk descends into its `geometry` member. */
    method FlattenGeometry()
      requires Valid() && Model.kind == "Feature" && Walkable(Model)
      modifies Repr
      ensures Valid() && Repr == old(Repr)
      ensures Model == FlattenObject(old(Model))
      ensures forall o :: o in Repr ==>
        o.kind == old(o.kind) && o.geometry == old(o.geometry) && o.features == old(o.features) &&
        o.Repr == old(o.Repr)
      decreases Repr, 1
    {
      ghost var m0 := Model;
      var _ := geometry.FlattenInPlace();
      Model := FlattenObject(m0);
    }

    /** Partway through the loop over the features of a FeatureCollection whose value was
        `m0`: the first `n` features are flattened, the others as they were, and the tree
        is otherwise as `Valid` describes it. */
    ghost predicate FeaturesDone(m0: Object, n: nat)
      reads this, Repr
    {
      this in Repr && Model == m0 && m0.kind == "FeatureCollection" && Walkable(m0) &&
      kind == m0.kind && coordinates == m0.coordinates &&
      features.Some? && |features.value| == |m0.features.list| && n <= |features.value| &&
      (geometry == null <==> m0.geometry.None?) &&
      (geometry != null ==>
        geometry in Repr && geometry.Repr <= Repr && this !in geometry.Repr &&
        geometry.Valid() && m0.geometry.value == geometry.Model) &&
      var fs := features.value;
      (forall j :: 0 <= j < |fs| ==>
        fs[j] in Repr && fs[j].Repr <= Repr && this !in fs[j].Repr && fs[j].Valid() &&
        fs[j].Model == if j < n then FlattenObject(m0.features.list[j]) else m0.features.list[j]) &&
      (forall i, j :: 0 <= i < j < |fs| ==> fs[i].Repr !! fs[j].Repr) &&
      (geometry != null ==> forall j :: 0 <= j < |fs| ==> geometry.Repr !! fs[j].Repr)
    }

    /** The loop over `features` of a FeatureCollection, flattening each member in turn. */
    method FlattenFeatures()
      requires Valid() && Model.kind == "FeatureCollection" && Walkable(Model)
      modifies Repr
      ensures Valid() && Repr == old(Repr)
      ensures Model == FlattenObject(old(Model))
      ensures forall o :: o in Repr ==>
        o.kind == old(o.kind) && o.geometry == old(o.geometry) && o.features == old(o.features) &&
        o.Repr == old(o.Repr)
      decreases Repr, 1
    {
      ghost var m0 := Model;
      var fs := features.value;
      var i := 0;
      while i < |fs|
        invariant 0 <= i <= |fs| && features == Some(fs)
        invariant FeaturesDone(m0, i) && Repr == old(Repr)
        invariant forall o :: o in Repr ==>
          o.kind == old(o.kind) && o.geometry == old(o.geometry) && o.features == old(o.features) &&
          o.Repr == old(o.Repr)
      {
        FlattenFeatureAt(m0, i);
        i := i + 1;
      }
      FinishFeatures(m0);
    }

    /** After the loop: every feature is flattened, so the value of the collection is
        the flattened one. */
    ghost method FinishFeatures(m0: Object)
      requires features.Some? && FeaturesDone(m0, |features.value|)
      modifies this
      ensures Valid() && Model == FlattenObject(m0)
      ensures kind == old(kind) && coordinates == old(coordinates)
      ensures geometry == old(geometry) && features == old(features) && Repr == old(Repr)
    {
      Model := FlattenObject(m0);
    }

    /** One turn of the loop: flattens feature `n`, leaving the others alone. */
    method FlattenFeatureAt(ghost m0: Object, n: nat)
      requires FeaturesDone(m0, n) && n < |features.value|
      modifies features.value[n].Repr
      ensures FeaturesDone(m0, n + 1)
      ensures forall o :: o in old(features.value[n].Repr) ==>
        o.kind == old(o.kind) && o.geometry == old(o.geometry) && o.features == old(o.features) &&
        o.Repr == old(o.Repr)
      decreases Repr, 0
    {
      var fs := features.value;
      assert forall j :: 0 <= j < |fs| && j != n ==> fs[j].Repr !! fs[n].Repr;
      var _ := fs[n].FlattenInPlace();
    }
  }

  /** The objects of the trees rooted at `fs`. */
  ghost function Footprint(fs: seq<GeoObject>): (r: set<GeoObject>)
    reads set i | 0 <= i < |fs| :: fs[i]
    ensures forall i :: 0 <= i < |fs| ==> fs[i].Repr <= r
  {
    if |fs| == 0 then {} else fs[0].Repr + Footprint(fs[1..])
  }

  /** The document `{"type": "FeatureCollection", "features": [{"type": "Feature",
      "geometry": {"type": "Point", "coordinates": p}}]}` as a tree of objects. */
  method NewPointCollection(p: Coords) returns (collection: GeoObject, point: GeoObject)
    ensures collection.Valid() && fresh(collection.Repr)
    ensures collection.features.Some? && |collection.features.value| == 1
    ensures collection.features.value[0].geometry == point
    ensures collection.Model == Object("FeatureCollection", None, None, Features([
      Object("Feature", None, Some(Object("Point", Some(p), None, NoFeatures)), NoFeatures)]))
  {
    point := new GeoObject.OfCoordinates("Point", p);
    var feature := new GeoObject.Feature(point);
    collection := new GeoObject.Collection([feature]);
    assert collection.Model.features.list == [feature.Model];
  }

  /** A FeatureCollection holding one Feature whose Point has a Z coordinate: after the
      walk the very Point object of the tree holds `[x, y]`. */
  method FlattenPointExample(x: real, y: real, z: real) returns (c: Option<Coords>)
    ensures c == Some(Arr([Num(x), Num(y)]))
  {
    var collection, point := NewPointCollection(Arr([Num(x), Num(y), Num(z)]));
    ghost var m0 := collection.Model;
    var feature := collection.features.value[0];
    var r := collection.FlattenInPlace();
    assert collection.features.value[0] == feature && feature.geometry == point;
    assert feature.Valid() && feature.Model == FlattenObject(m0.features.list[0]);
    assert point.Valid() && point.Model == FlattenObject(m0.features.list[0].geometry.value);
    FlattenDropsZ(x, y, z);
    c := point.coordinates;
  }
}
