/**
 * The parts of mapshaper that the memory API calls but does not implement:
 * the GeoJSON importer and exporter, the geometry commands of `cmd`, and the
 * host's number formatting. Each is a field of `Mapshaper`, so every API
 * function is stated for ALL possible behaviours of these collaborators.
 */
module Collaborators {
  import opened Outcomes
  import opened JsValue
  import opened MapData

  /** What a command called as `cmd(layer, arcs, opts)` leaves behind: the
      state of the layer it was given (commands may edit it in place), the
      state of the arc pool it was given, and what it returned (`None` when it
      returned nothing). */
  datatype Effect = Effect(layer: Layer, pool: ArcPool, returned: Option<Layer>)

  /** What a command that receives a dataset object returns, together with
      the state in which it leaves that dataset. */
  datatype After<+T> = After(result: T, dataset: Dataset)

  type LayerCommand = (Layer, Option<ArcPool>, Value) -> Effect

  /** The entry points that only validate and delegate to runCommandOnGeojson. */
  datatype UniformOp =
    | Dissolve | Clean | Union | Explode | Points | Lines | Polygons | Mosaic
    | Sort | Innerlines | Affine | Proj | Inlay | FilterIslands | RenameFields
    | FilterFields | Drop | Uniq | Dots | CheckGeometry | FilterSlivers | Snap

  /** The entry points that synthesize a layer from options alone. */
  datatype Generator = Rectangle | Graticule | PointGrid

  datatype Mapshaper = Mapshaper(
    // importGeoJSON(geojson, opts); None stands for a falsy return
    importGeoJSON: (Value, Value) -> Option<Dataset>,
    // exportLayerAsGeoJSON(layer, dataset, opts, true): the feature list
    exportLayer: (Layer, Dataset, Value) -> seq<Value>,
    // Number.prototype.toString, used by template strings
    numberText: real -> string,
    uniform: UniformOp -> LayerCommand,
    buffer: LayerCommand,
    simplify: LayerCommand,
    dissolve2: (seq<Layer>, Dataset, Value) -> After<seq<Layer>>,
    // clipLayers(targetLayers, clipLayer, targetDataset, clipDataset, opts)
    clipLayers: (seq<Layer>, Layer, Dataset, Dataset, Value) -> After<seq<Layer>>,
    // divideLayer(targetLayer, dividerLayer, targetDataset, opts)
    divideLayer: (Layer, Layer, Dataset, Value) -> After<Layer>,
    // filterFeatures(layer, arcs, opts) edits the layer (and may edit the
    // pool) in place; filter ignores what it returns
    filterFeatures: LayerCommand,
    // evaluateEachFeature(layer, dataset, expression, opts): the state in
    // which it leaves the dataset; the layer it is handed is that dataset's
    // first layer, so the layer's edit shows there
    evaluateEachFeature: (Layer, Dataset, Value, Value) -> Dataset,
    // in-place attribute editors: the returned layer is the edited layer's new state
    join: (Layer, Layer, Value) -> Layer,
    fuzzyJoin: (Layer, Layer, Value) -> Layer,
    splitLayer: (Layer, Value) -> seq<Layer>,
    mergeLayers: (seq<Layer>, Value) -> Layer,
    generate: Generator -> ((Dataset, Value) -> After<Layer>),
    printInfo: Dataset -> Value)

  /** An exporter whose output for a layer depends on the dataset only
      through its arc pool and metadata, not through its other layers. */
  ghost predicate ExportIsLayerLocal(env: Mapshaper) {
    forall l: Layer, a: Dataset, b: Dataset, opts: Value :: a.arcs == b.arcs && a.info == b.info ==>
      env.exportLayer(l, a, opts) == env.exportLayer(l, b, opts)
  }
}
