/**
 * mapshaper's internal data: a dataset is an arc pool, an ordered list of
 * layers and free-form metadata (`info`). Polyline and polygon shapes refer
 * to arcs of their own dataset's pool by index; index `i` traverses arc `i`
 * forward and `~i` (that is, `-i - 1`) traverses it in reverse.
 */
module MapData {
  import opened Outcomes
  import opened JsValue

  datatype Point = Point(x: real, y: real)

  /** The shared boundary polylines of one dataset. */
  datatype ArcPool = ArcPool(arcs: seq<seq<Point>>)

  datatype GeometryType = PointGeometry | PolylineGeometry | PolygonGeometry

  /** A path-based shape is a list of parts (rings or paths), each a list of
      signed arc indices; a point shape holds its coordinates directly. */
  datatype Shape = ArcShape(parts: seq<seq<int>>) | PointShape(points: seq<Point>)

  /** A layer: a geometry type, one shape per feature (`None` for a feature
      without geometry) and one attribute record per feature. */
  datatype Layer = Layer(
    name: Option<string>,
    geometryType: Option<GeometryType>,
    shapes: seq<Option<Shape>>,
    data: seq<Value>)

  /** A dataset; `arcs` is `None` where the source has `arcs: null`. */
  datatype Dataset = Dataset(layers: seq<Layer>, arcs: Option<ArcPool>, info: Value)

  /** The `{type: 'FeatureCollection', features}` object every export returns. */
  datatype FeatureCollection = FeatureCollection(features: seq<Value>)

  /** The collection as the JavaScript object the caller receives. */
  function AsGeoJson(fc: FeatureCollection): (v: Value)
    ensures Get(v, "type") == Str("FeatureCollection")
    ensures Get(v, "features") == Arr(fc.features)
  {
    var props := [("type", Str("FeatureCollection")), ("features", Arr(fc.features))];
    assert Lookup(props[1..], "features") == Arr(fc.features);
    Obj(props)
  }

  /** `dataset.info || {}`. */
  function InfoOrEmpty(info: Value): (r: Value)
    ensures Truthy(r)
    ensures Truthy(info) ==> r == info
    ensures !Truthy(info) ==> r == EmptyObject
  {
    if Truthy(info) then info else EmptyObject
  }

  // ---------------------------------------------------------------------------
  // Topological consistency: arc indices are meaningful only in their own pool

  function ArcCount(pool: Option<ArcPool>): nat {
    if pool.Some? then |pool.value.arcs| else 0
  }

  predicate ArcRefValid(id: int, count: nat) {
    if id >= 0 then id < count else -id - 1 < count
  }

  predicate ShapeRefsValid(s: Shape, count: nat) {
    s.ArcShape? ==> forall part :: part in s.parts ==> forall id :: id in part ==> ArcRefValid(id, count)
  }

  predicate LayerRefsValid(l: Layer, count: nat) {
    forall s :: s in l.shapes && s.Some? ==> ShapeRefsValid(s.value, count)
  }

  /** Every arc index used by any layer of the dataset exists in its pool. */
  predicate Consistent(ds: Dataset) {
    forall l :: l in ds.layers ==> LayerRefsValid(l, ArcCount(ds.arcs))
  }
}
