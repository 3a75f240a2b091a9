/**
 * src/api/mapshaper-api-utils.mjs: validation of GeoJSON input, conversion
 * between GeoJSON and datasets, and the mutate-or-replace dispatch that most
 * entry points share.
 */
module ApiUtils {
  import opened Outcomes
  import opened JsValue
  import opened MapData
  import opened Collaborators

  const GeoJsonRequired := "Invalid input: GeoJSON object is required"
  const ConversionFailed := "Failed to convert GeoJSON to dataset"
  const NoLayersFound := "Invalid dataset: no layers found"

  /** The nine GeoJSON object types of section 1.4 of RFC 7946. */
  datatype GeoJsonType =
    | FeatureCollectionType | FeatureType
    | PointType | MultiPointType | LineStringType | MultiLineStringType
    | PolygonType | MultiPolygonType | GeometryCollectionType

  function TypeName(t: GeoJsonType): string {
    match t
    case FeatureCollectionType => "FeatureCollection"
    case FeatureType => "Feature"
    case PointType => "Point"
    case MultiPointType => "MultiPoint"
    case LineStringType => "LineString"
    case MultiLineStringType => "MultiLineString"
    case PolygonType => "Polygon"
    case MultiPolygonType => "MultiPolygon"
    case GeometryCollectionType => "GeometryCollection"
  }

  /** The source's list of accepted `type` values. */
  const ValidTypes: seq<Value> := [
    Str("FeatureCollection"), Str("Feature"), Str("Point"), Str("MultiPoint"),
    Str("LineString"), Str("MultiLineString"), Str("Polygon"),
    Str("MultiPolygon"), Str("GeometryCollection")]

  /** validateGeojson, read as the truth value its callers test. */
  function ValidateGeojson(g: Value): (ok: bool)
    ensures ok ==> g.Obj?
    ensures ok ==> Get(g, "type").Str?
  {
    if !Truthy(g) || !TypeofObject(g) then false
    else
      var t := Get(g, "type");
      Truthy(t) && t in ValidTypes
  }

  /** Validation accepts exactly the objects whose `type` names one of the
      nine GeoJSON types; null, undefined, strings, numbers, booleans and
      arrays are all rejected. */
  lemma ValidateGeojsonExactlyNineTypes(g: Value)
    ensures ValidateGeojson(g) <==> g.Obj? && exists t :: Get(g, "type") == Str(TypeName(t))
  {
    if ValidateGeojson(g) {
      var s := Get(g, "type").s;
      var t :=
        if s == "FeatureCollection" then FeatureCollectionType
        else if s == "Feature" then FeatureType
        else if s == "Point" then PointType
        else if s == "MultiPoint" then MultiPointType
        else if s == "LineString" then LineStringType
        else if s == "MultiLineString" then MultiLineStringType
        else if s == "Polygon" then PolygonType
        else if s == "MultiPolygon" then MultiPolygonType
        else GeometryCollectionType;
      assert Get(g, "type") == Str(TypeName(t));
    }
  }

  /** Every collection the API returns is itself accepted as input. */
  lemma OutputIsValidInput(fc: FeatureCollection)
    ensures ValidateGeojson(AsGeoJson(fc))
  {
    assert Get(AsGeoJson(fc), "type") == ValidTypes[0];
  }

  /** geojsonToDataset: a falsy input, a falsy import result and an import
      without layers are each refused; a dataset that is returned has a layer. */
  function GeojsonToDataset(env: Mapshaper, g: Value, opts: Value): (r: Result<Dataset>)
    ensures !Truthy(g) ==> r == Fail(Stop(GeoJsonRequired))
    ensures Truthy(g) && (env.importGeoJSON(g, opts).None? || |env.importGeoJSON(g, opts).value.layers| == 0) ==>
              r == Fail(Stop(ConversionFailed))
    ensures r.Ok? <==> Truthy(g) && env.importGeoJSON(g, opts).Some? && |env.importGeoJSON(g, opts).value.layers| > 0
    ensures r.Ok? ==> r.value == env.importGeoJSON(g, opts).value && |r.value.layers| >= 1
  {
    if !Truthy(g) then Fail(Stop(GeoJsonRequired))
    else
      var imported := env.importGeoJSON(g, opts);
      if imported.None? || |imported.value.layers| == 0 then Fail(Stop(ConversionFailed))
      else Ok(imported.value)
  }

  /** datasetToGeojson: fails exactly on a dataset without layers; otherwise
      the features are the export of the FIRST layer only. */
  function DatasetToGeojson(env: Mapshaper, ds: Dataset, opts: Value): (r: Result<FeatureCollection>)
    ensures r.Fail? <==> |ds.layers| == 0
    ensures r.Fail? ==> r.error == Stop(NoLayersFound)
    ensures r.Ok? ==> r.value.features == env.exportLayer(ds.layers[0], ds, opts)
  {
    if |ds.layers| == 0 then Fail(Stop(NoLayersFound))
    else Ok(FeatureCollection(env.exportLayer(ds.layers[0], ds, opts)))
  }

  /** Layers after the first never reach the output (for an exporter that
      looks at the dataset only for its arcs and metadata). */
  lemma LaterLayersNeverExported(env: Mapshaper, a: Dataset, b: Dataset, opts: Value)
    requires ExportIsLayerLocal(env)
    requires |a.layers| > 0 && |b.layers| > 0 && a.layers[0] == b.layers[0]
    requires a.arcs == b.arcs && a.info == b.info
    ensures DatasetToGeojson(env, a, opts) == DatasetToGeojson(env, b, opts)
  {
    assert env.exportLayer(a.layers[0], a, opts) == env.exportLayer(b.layers[0], b, opts);
  }

  /** The pool a command leaves: it may edit the pool it is handed, but it
      cannot attach one to a dataset that had none. */
  function PoolAfter(pool: Option<ArcPool>, e: Effect): (r: Option<ArcPool>)
    ensures r.Some? <==> pool.Some?
    ensures r.Some? ==> r.value == e.pool
  {
    if pool.Some? then Some(e.pool) else None
  }

  /** The imported dataset after a command edited its first layer in place. */
  function EditedDataset(ds: Dataset, e: Effect): (r: Dataset)
    requires |ds.layers| > 0
    ensures |r.layers| == |ds.layers| && r.layers[0] == e.layer
    ensures forall i :: 0 < i < |ds.layers| ==> r.layers[i] == ds.layers[i]
    ensures r.info == ds.info
    ensures r.arcs == PoolAfter(ds.arcs, e)
  {
    Dataset(ds.layers[0 := e.layer], PoolAfter(ds.arcs, e), ds.info)
  }

  /** The dataset that wraps a returned layer: that layer alone, over the
      original (possibly edited) pool, with `info || {}`. */
  function ReplacementDataset(ds: Dataset, e: Effect, layer: Layer): (r: Dataset)
    ensures r.layers == [layer]
    ensures r.arcs == PoolAfter(ds.arcs, e)
    ensures r.info == InfoOrEmpty(ds.info)
  {
    Dataset([layer], PoolAfter(ds.arcs, e), InfoOrEmpty(ds.info))
  }

  /** runCommandOnGeojson. */
  function RunCommandOnGeojson(env: Mapshaper, g: Value, command: LayerCommand, opts: Value): (r: Result<FeatureCollection>)
    ensures GeojsonToDataset(env, g, opts).Fail? ==> r == Fail(GeojsonToDataset(env, g, opts).error)
    ensures r.Ok? <==> GeojsonToDataset(env, g, opts).Ok?
    ensures r.Ok? ==>
              var ds := GeojsonToDataset(env, g, opts).value;
              var e := command(ds.layers[0], ds.arcs, opts);
              if e.returned.None?
              then r.value.features == env.exportLayer(e.layer, EditedDataset(ds, e), opts)
              else r.value.features == env.exportLayer(e.returned.value, ReplacementDataset(ds, e, e.returned.value), opts)
  {
    var ds :- GeojsonToDataset(env, g, opts);
    var e := command(ds.layers[0], ds.arcs, opts);
    if e.returned.None? then DatasetToGeojson(env, EditedDataset(ds, e), opts)
    else DatasetToGeojson(env, ReplacementDataset(ds, e, e.returned.value), opts)
  }

  /** The command is consulted exactly once, on the first layer, the
      dataset's arcs and the caller's options: two commands that agree there
      give the same result. */
  lemma CommandSeenOnlyOnFirstLayer(env: Mapshaper, g: Value, c1: LayerCommand, c2: LayerCommand, opts: Value)
    requires GeojsonToDataset(env, g, opts).Ok?
    requires var ds := GeojsonToDataset(env, g, opts).value;
             c1(ds.layers[0], ds.arcs, opts) == c2(ds.layers[0], ds.arcs, opts)
    ensures RunCommandOnGeojson(env, g, c1, opts) == RunCommandOnGeojson(env, g, c2, opts)
  {
  }

  /** A replacement layer whose arc references are valid in the pool the
      command left yields a consistent dataset: the replacement reuses the
      pool and introduces no foreign arc indices. */
  lemma ReplacementKeepsTopology(ds: Dataset, e: Effect, layer: Layer)
    requires LayerRefsValid(layer, ArcCount(PoolAfter(ds.arcs, e)))
    ensures Consistent(ReplacementDataset(ds, e, layer))
  {
  }
}
