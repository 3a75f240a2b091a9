/**
 * src/api/mapshaper-memory-api.mjs: the public entry points. Each validates
 * its GeoJSON argument(s), normalises its options, imports, runs one command
 * of `cmd` and exports the result, failing with a fixed message on the way.
 */
module MemoryApi {
  import opened Outcomes
  import opened JsValue
  import opened MapData
  import opened Collaborators
  import opened ApiUtils

  const InvalidInput := "Invalid GeoJSON input"
  const InvalidTarget := "Invalid target GeoJSON input"
  const InvalidClip := "Invalid clip GeoJSON input"
  const InvalidSource := "Invalid source GeoJSON input"
  const InvalidDivider := "Invalid divider GeoJSON input"
  const BufferDistanceRequired := "Buffer distance is required"
  const NonEmptyArrayRequired := "Input must be a non-empty array of GeoJSON objects"
  const FilterExpressionRequired := "Filter expression is required"
  const ExpressionsObjectRequired := "Expressions object is required"
  const EachExpressionRequired := "Expression is required for each function"

  function InvalidAtIndex(i: nat): string {
    "Invalid GeoJSON at index " + DecimalString(i)
  }

  /** Different indices give different messages, so the message names the
      offending element unambiguously. */
  lemma InvalidAtIndexNamesIndex(i: nat, j: nat)
    requires InvalidAtIndex(i) == InvalidAtIndex(j)
    ensures i == j
  {
    var prefix := "Invalid GeoJSON at index ";
    assert DecimalString(i) == InvalidAtIndex(i)[|prefix|..];
    assert DecimalString(j) == InvalidAtIndex(j)[|prefix|..];
    DecimalStringInjective(i, j);
  }

  /** `{layers, arcs: base.arcs, info: base.info || {}}`, the dataset the
      source assembles around command output. */
  function DatasetOver(layers: seq<Layer>, base: Dataset): (r: Dataset)
    ensures r.layers == layers && r.arcs == base.arcs
    ensures r.info == InfoOrEmpty(base.info)
  {
    Dataset(layers, base.arcs, InfoOrEmpty(base.info))
  }

  /** The dataset after an in-place command rewrote its first layer: the
      same pool, the same metadata, the same later layers. */
  function WithFirstLayer(ds: Dataset, layer: Layer): (r: Dataset)
    requires |ds.layers| > 0
    ensures |r.layers| == |ds.layers| && r.layers[0] == layer
    ensures forall i :: 0 < i < |ds.layers| ==> r.layers[i] == ds.layers[i]
    ensures r.arcs == ds.arcs && r.info == ds.info
  {
    ds.(layers := ds.layers[0 := layer])
  }

  // ---------------------------------------------------------------------------
  // Single-input entry points

  /** dissolve, clean, union, explode, points, lines, polygons, mosaic, sort,
      innerlines, affine, proj, inlay, filterIslands, renameFields,
      filterFields, drop, uniq, dots, checkGeometry, filterSlivers and snap:
      validate, then hand the caller's options to runCommandOnGeojson. */
  function RunUniform(env: Mapshaper, op: UniformOp, g: Value, options: Value): (r: Result<FeatureCollection>)
    ensures !ValidateGeojson(g) ==> r == Fail(Stop(InvalidInput))
    ensures ValidateGeojson(g) ==> r == RunCommandOnGeojson(env, g, env.uniform(op), Default(options))
  {
    if !ValidateGeojson(g) then Fail(Stop(InvalidInput))
    else RunCommandOnGeojson(env, g, env.uniform(op), Default(options))
  }

  /** dissolve2: the command sees all layers and the dataset; the result
      wraps its layers over the dataset's arcs as the command left them. */
  function Dissolve2(env: Mapshaper, g: Value, options: Value): (r: Result<FeatureCollection>)
    ensures !ValidateGeojson(g) ==> r == Fail(Stop(InvalidInput))
    ensures ValidateGeojson(g) && GeojsonToDataset(env, g, Default(options)).Fail? ==>
              r == Fail(GeojsonToDataset(env, g, Default(options)).error)
    ensures ValidateGeojson(g) && GeojsonToDataset(env, g, Default(options)).Ok? ==>
              var ds := GeojsonToDataset(env, g, Default(options)).value;
              var after := env.dissolve2(ds.layers, ds, Default(options));
              r == DatasetToGeojson(env, DatasetOver(after.result, after.dataset), Default(options))
  {
    if !ValidateGeojson(g) then Fail(Stop(InvalidInput))
    else
      var o := Default(options);
      var ds :- GeojsonToDataset(env, g, o);
      var after := env.dissolve2(ds.layers, ds, o);
      DatasetToGeojson(env, DatasetOver(after.result, after.dataset), o)
  }

  /** The options buffer hands to its command: a copy of the caller's with
      `distance` set to the positional argument. */
  function BufferOptions(options: Value, distance: Value): (opts: Value)
    ensures opts.Obj? && Get(opts, "distance") == distance
  {
    ExtendWith(options, "distance", distance)
  }

  /** The positional distance overrides `options.distance`; every other option
      is passed through unchanged, in its original order. */
  lemma BufferDistanceOverrides(options: Value, distance: Value)
    requires DistinctKeys(PropsOf(options))
    ensures Get(BufferOptions(options, distance), "distance") == distance
    ensures forall k :: k != "distance" ==> Get(BufferOptions(options, distance), k) == Get(options, k)
    ensures "distance" in Keys(PropsOf(options)) ==> Keys(BufferOptions(options, distance).props) == Keys(PropsOf(options))
  {
    ExtendWithOverrides(options, "distance", distance);
  }

  function Buffer(env: Mapshaper, g: Value, distance: Value, options: Value): (r: Result<FeatureCollection>)
    ensures !ValidateGeojson(g) ==> r == Fail(Stop(InvalidInput))
    ensures ValidateGeojson(g) && (distance.Undefined? || distance.Null?) ==> r == Fail(Stop(BufferDistanceRequired))
    ensures ValidateGeojson(g) && !distance.Undefined? && !distance.Null? ==>
              r == RunCommandOnGeojson(env, g, env.buffer, BufferOptions(Default(options), distance))
  {
    if !ValidateGeojson(g) then Fail(Stop(InvalidInput))
    else if distance.Undefined? || distance.Null? then Fail(Stop(BufferDistanceRequired))
    else RunCommandOnGeojson(env, g, env.buffer, BufferOptions(Default(options), distance))
  }

  /** A zero, empty or false distance is still a distance: only null and
      undefined are refused. */
  lemma BufferAcceptsFalsyDistance(env: Mapshaper, g: Value, options: Value)
    requires ValidateGeojson(g)
    ensures Buffer(env, g, Num(0.0), options) != Fail(Stop(BufferDistanceRequired))
  {
    var o := BufferOptions(Default(options), Num(0.0));
    if RunCommandOnGeojson(env, g, env.buffer, o).Fail? {
      var imported := GeojsonToDataset(env, g, o);
      assert imported.Fail?;
      assert imported.error.message != BufferDistanceRequired;
    }
  }

  predicate HasSimplifyAmount(options: Value) {
    Truthy(Get(options, "percentage")) || Truthy(Get(options, "interval")) || Truthy(Get(options, "resolution"))
  }

  /** simplify's option normalisation: without a truthy percentage, interval
      or resolution the options get `percentage: 0.1`; otherwise they pass
      through untouched. Reading `options.percentage` of null throws. */
  function SimplifyOptions(options: Value): (r: Result<Value>)
    ensures r.Fail? <==> options.Null? || options.Undefined?
    ensures r.Ok? && HasSimplifyAmount(options) ==> r.value == options
    ensures r.Ok? && !HasSimplifyAmount(options) ==>
              r.value.Obj? && Get(r.value, "percentage") == Num(0.1) && HasSimplifyAmount(r.value)
  {
    var percentage :- ReadProp(options, "percentage");
    if Truthy(percentage) || Truthy(Get(options, "interval")) || Truthy(Get(options, "resolution")) then Ok(options)
    else Ok(ExtendWith(options, "percentage", Num(0.1)))
  }

  /** Adding the default leaves every other option as the caller gave it. */
  lemma SimplifyDefaultKeepsOtherOptions(options: Value)
    requires options.Obj? && DistinctKeys(options.props) && !HasSimplifyAmount(options)
    ensures forall k :: k != "percentage" ==> Get(SimplifyOptions(options).value, k) == Get(options, k)
  {
    ExtendWithOverrides(options, "percentage", Num(0.1));
  }

  /** Normalising twice is normalising once. */
  lemma SimplifyOptionsIdempotent(options: Value)
    requires SimplifyOptions(options).Ok?
    ensures SimplifyOptions(SimplifyOptions(options).value) == SimplifyOptions(options)
  {
  }

  function Simplify(env: Mapshaper, g: Value, options: Value): (r: Result<FeatureCollection>)
    ensures !ValidateGeojson(g) ==> r == Fail(Stop(InvalidInput))
    ensures ValidateGeojson(g) && options.Null? ==> r.Fail? && r.error.TypeError?
    ensures ValidateGeojson(g) && !options.Null? ==>
              r == RunCommandOnGeojson(env, g, env.simplify, SimplifyOptions(Default(options)).value)
  {
    if !ValidateGeojson(g) then Fail(Stop(InvalidInput))
    else
      var opts :- SimplifyOptions(Default(options));
      RunCommandOnGeojson(env, g, env.simplify, opts)
  }

  /** filter's legacy form: a string second argument is the expression. */
  function FilterOptions(options: Value): (opts: Value)
    ensures options.Str? ==> opts.Obj? && Get(opts, "expression") == options && |opts.props| == 1
    ensures !options.Str? ==> opts == options
  {
    if options.Str? then Obj([("expression", options)]) else options
  }

  /** filter: after validation, a missing or falsy `expression` stops
      before import (reading it from null throws); otherwise the command
      edits the first layer (and possibly the pool) in place and the
      imported dataset is exported. */
  function Filter(env: Mapshaper, g: Value, options: Value): (r: Result<FeatureCollection>)
    ensures !ValidateGeojson(g) ==> r == Fail(Stop(InvalidInput))
    ensures ValidateGeojson(g) && options.Null? ==> r.Fail? && r.error.TypeError?
    ensures ValidateGeojson(g) && !options.Null? && !Truthy(Get(FilterOptions(Default(options)), "expression")) ==>
              r == Fail(Stop(FilterExpressionRequired))
    ensures ValidateGeojson(g) && !options.Null? && Truthy(Get(FilterOptions(Default(options)), "expression")) ==>
              var imported := GeojsonToDataset(env, g, FilterOptions(Default(options)));
              (r.Ok? <==> imported.Ok?) && (imported.Fail? ==> r == Fail(imported.error))
    ensures r.Ok? ==> GeojsonToDataset(env, g, FilterOptions(Default(options))).Ok?
    ensures r.Ok? ==>
              var opts := FilterOptions(Default(options));
              var ds := GeojsonToDataset(env, g, opts).value;
              var e := env.filterFeatures(ds.layers[0], ds.arcs, opts);
              r.value.features == env.exportLayer(e.layer, EditedDataset(ds, e), opts)
  {
    if !ValidateGeojson(g) then Fail(Stop(InvalidInput))
    else
      var opts := FilterOptions(Default(options));
      var expression :- ReadProp(opts, "expression");
      if !Truthy(expression) then Fail(Stop(FilterExpressionRequired))
      else
        var ds :- GeojsonToDataset(env, g, opts);
        var e := env.filterFeatures(ds.layers[0], ds.arcs, opts);
        DatasetToGeojson(env, EditedDataset(ds, e), opts)
  }

  /** `field = expr` for every entry, in the object's key order. */
  function CalcLines(entries: seq<(string, Value)>, numberText: real -> string): (lines: seq<string>)
    ensures |lines| == |entries|
    ensures forall i :: 0 <= i < |entries| ==> lines[i] == entries[i].0 + " = " + TemplateText(entries[i].1, numberText)
  {
    seq(|entries|, i requires 0 <= i < |entries| => entries[i].0 + " = " + TemplateText(entries[i].1, numberText))
  }

  /** The single expression calc passes to evaluateEachFeature. */
  function CalcExpression(expressions: Value, numberText: real -> string): string {
    JoinWith("; ", CalcLines(Entries(expressions), numberText))
  }

  /** The calc expression holds `field = expr` for each entry of
      `Object.entries(expressions)` (an object's keys in order, an array's
      indices), each at its offset and separated from the next by "; ". */
  lemma CalcExpressionInKeyOrder(expressions: Value, numberText: real -> string, i: nat)
    requires expressions.Obj? || expressions.Arr?
    requires i < |Entries(expressions)|
    ensures expressions.Obj? ==> Entries(expressions)[i] == expressions.props[i]
    ensures expressions.Arr? ==> Entries(expressions)[i] == (DecimalString(i), expressions.items[i])
    ensures var lines := CalcLines(Entries(expressions), numberText);
            var at := PartOffset("; ", lines, i);
            var line := Entries(expressions)[i].0 + " = " + TemplateText(Entries(expressions)[i].1, numberText);
            at + |line| <= |CalcExpression(expressions, numberText)| &&
            CalcExpression(expressions, numberText)[at..at + |line|] == line
    ensures i + 1 < |Entries(expressions)| ==>
              var lines := CalcLines(Entries(expressions), numberText);
              var end := PartOffset("; ", lines, i) + |lines[i]|;
              end + 2 <= |CalcExpression(expressions, numberText)| &&
              CalcExpression(expressions, numberText)[end..end + 2] == "; "
  {
    var entries := Entries(expressions);
    var lines := CalcLines(entries, numberText);
    assert CalcExpression(expressions, numberText) == JoinWith("; ", lines);
    assert lines[i] == entries[i].0 + " = " + TemplateText(entries[i].1, numberText);
    JoinPlacesPart("; ", lines, i);
    if i + 1 < |lines| {
      JoinPlacesSeparator("; ", lines, i);
      assert |"; "| == 2;
    }
  }

  /** The calc expression is "" without entries, and otherwise ends with
      the last entry's `field = expr`: no "; " trails it. */
  lemma CalcExpressionEnds(expressions: Value, numberText: real -> string)
    ensures |Entries(expressions)| == 0 ==> CalcExpression(expressions, numberText) == ""
    ensures |Entries(expressions)| > 0 ==>
              var lines := CalcLines(Entries(expressions), numberText);
              |CalcExpression(expressions, numberText)| == PartOffset("; ", lines, |lines| - 1) + |lines[|lines| - 1]|
  {
    var lines := CalcLines(Entries(expressions), numberText);
    assert CalcExpression(expressions, numberText) == JoinWith("; ", lines);
    if |lines| > 0 {
      JoinEnds("; ", lines);
    }
  }

  /** `cmd.evaluateEachFeature(dataset.layers[0], dataset, expression, opts)`:
      the dataset as the command leaves it. */
  function EvaluateOnFirstLayer(env: Mapshaper, ds: Dataset, expression: Value, opts: Value): Dataset
    requires |ds.layers| > 0
  {
    env.evaluateEachFeature(ds.layers[0], ds, expression, opts)
  }

  /** calc: after validation and import, the joined expression is evaluated
      on the first layer and the dataset, as the command leaves it, is
      exported; a command that leaves it without layers gives the
      no-layers stop. */
  function Calc(env: Mapshaper, g: Value, expressions: Value, options: Value): (r: Result<FeatureCollection>)
    ensures !ValidateGeojson(g) ==> r == Fail(Stop(InvalidInput))
    ensures ValidateGeojson(g) && !(expressions.Obj? || expressions.Arr?) ==> r == Fail(Stop(ExpressionsObjectRequired))
    ensures ValidateGeojson(g) && (expressions.Obj? || expressions.Arr?) && GeojsonToDataset(env, g, Default(options)).Fail? ==>
              r == Fail(GeojsonToDataset(env, g, Default(options)).error)
    ensures ValidateGeojson(g) && (expressions.Obj? || expressions.Arr?) && GeojsonToDataset(env, g, Default(options)).Ok? ==>
              var ds := GeojsonToDataset(env, g, Default(options)).value;
              var after := EvaluateOnFirstLayer(env, ds, Str(CalcExpression(expressions, env.numberText)), Default(options));
              (r.Ok? <==> |after.layers| > 0) &&
              (|after.layers| == 0 ==> r == Fail(Stop(NoLayersFound))) &&
              (r.Ok? ==> r.value.features == env.exportLayer(after.layers[0], after, Default(options)))
  {
    if !ValidateGeojson(g) then Fail(Stop(InvalidInput))
    else if !Truthy(expressions) || !TypeofObject(expressions) then Fail(Stop(ExpressionsObjectRequired))
    else
      var o := Default(options);
      var expression := CalcExpression(expressions, env.numberText);
      var ds :- GeojsonToDataset(env, g, o);
      DatasetToGeojson(env, EvaluateOnFirstLayer(env, ds, Str(expression), o), o)
  }

  /** each: a falsy expression stops before import; otherwise the options
      gain `expression`, and the dataset as the command leaves it is
      exported. */
  function Each(env: Mapshaper, g: Value, expression: Value, options: Value): (r: Result<FeatureCollection>)
    ensures !ValidateGeojson(g) ==> r == Fail(Stop(InvalidInput))
    ensures ValidateGeojson(g) && !Truthy(expression) ==> r == Fail(Stop(EachExpressionRequired))
    ensures ValidateGeojson(g) && Truthy(expression) ==>
              var opts := ExtendWith(Default(options), "expression", expression);
              var imported := GeojsonToDataset(env, g, opts);
              Get(opts, "expression") == expression &&
              (imported.Fail? ==> r == Fail(imported.error)) &&
              (imported.Ok? ==>
                 var after := EvaluateOnFirstLayer(env, imported.value, expression, opts);
                 (r.Ok? <==> |after.layers| > 0) &&
                 (|after.layers| == 0 ==> r == Fail(Stop(NoLayersFound))) &&
                 (r.Ok? ==> r.value.features == env.exportLayer(after.layers[0], after, opts)))
  {
    if !ValidateGeojson(g) then Fail(Stop(InvalidInput))
    else if !Truthy(expression) then Fail(Stop(EachExpressionRequired))
    else
      var opts := ExtendWith(Default(options), "expression", expression);
      var ds :- GeojsonToDataset(env, g, opts);
      DatasetToGeojson(env, EvaluateOnFirstLayer(env, ds, expression, opts), opts)
  }

  datatype SplitOutput = Single(collection: FeatureCollection) | Many(collections: seq<FeatureCollection>)

  /** One layer exported from `{layers: [layer], arcs, info || {}}`. */
  function ExportAlone(env: Mapshaper, layer: Layer, base: Dataset, opts: Value): (fc: FeatureCollection)
    ensures DatasetToGeojson(env, DatasetOver([layer], base), opts) == Ok(fc)
  {
    FeatureCollection(env.exportLayer(layer, DatasetOver([layer], base), opts))
  }

  /** split: one collection when the command yields exactly one layer, and
      otherwise an array of collections, one per layer, in layer order, each
      over the original arcs (an empty array for no layers). */
  function Split(env: Mapshaper, g: Value, options: Value): (r: Result<SplitOutput>)
    ensures !ValidateGeojson(g) ==> r == Fail(Stop(InvalidInput))
    ensures ValidateGeojson(g) && GeojsonToDataset(env, g, Default(options)).Fail? ==>
              r == Fail(GeojsonToDataset(env, g, Default(options)).error)
    ensures ValidateGeojson(g) ==> (r.Ok? <==> GeojsonToDataset(env, g, Default(options)).Ok?)
    ensures r.Ok? ==>
              var ds := GeojsonToDataset(env, g, Default(options)).value;
              var parts := env.splitLayer(ds.layers[0], Default(options));
              (r.value.Single? <==> |parts| == 1) &&
              (r.value.Many? ==>
                 (|r.value.collections| == |parts| &&
                  forall i :: 0 <= i < |parts| ==> r.value.collections[i] == ExportAlone(env, parts[i], ds, Default(options))))
  {
    if !ValidateGeojson(g) then Fail(Stop(InvalidInput))
    else
      var o := Default(options);
      var ds :- GeojsonToDataset(env, g, o);
      var parts := env.splitLayer(ds.layers[0], o);
      if |parts| == 1 then
        Ok(Single(DatasetToGeojson(env, DatasetOver(parts, ds), o).value))
      else
        Ok(Many(seq(|parts|, i requires 0 <= i < |parts| => ExportAlone(env, parts[i], ds, o))))
  }

  /** The single-collection case holds exactly what the per-layer case would
      have produced for that one layer: only the wrapping differs. */
  lemma SplitSingleMatchesPerLayer(env: Mapshaper, g: Value, options: Value)
    requires Split(env, g, options).Ok? && Split(env, g, options).value.Single?
    ensures var ds := GeojsonToDataset(env, g, Default(options)).value;
            var parts := env.splitLayer(ds.layers[0], Default(options));
            |parts| == 1 && Split(env, g, options).value.collection == ExportAlone(env, parts[0], ds, Default(options))
  {
    var ds := GeojsonToDataset(env, g, Default(options)).value;
    var parts := env.splitLayer(ds.layers[0], Default(options));
    assert DatasetOver(parts, ds) == DatasetOver([parts[0]], ds);
  }

  /** mergeLayers on a single GeoJSON object: its layers collapse into one. */
  function MergeLayersOfOne(env: Mapshaper, g: Value, options: Value): (r: Result<FeatureCollection>)
    ensures !ValidateGeojson(g) ==> r == Fail(Stop(InvalidInput))
    ensures ValidateGeojson(g) && GeojsonToDataset(env, g, Default(options)).Fail? ==>
              r == Fail(GeojsonToDataset(env, g, Default(options)).error)
    ensures ValidateGeojson(g) ==> (r.Ok? <==> GeojsonToDataset(env, g, Default(options)).Ok?)
    ensures r.Ok? ==>
              var ds := GeojsonToDataset(env, g, Default(options)).value;
              var merged := env.mergeLayers(ds.layers, Default(options));
              r.value == ExportAlone(env, merged, ds, Default(options))
  {
    if !ValidateGeojson(g) then Fail(Stop(InvalidInput))
    else
      var o := Default(options);
      var ds :- GeojsonToDataset(env, g, o);
      var merged := env.mergeLayers(ds.layers, o);
      DatasetToGeojson(env, DatasetOver([merged], ds), o)
  }

  /** info: the command's report on the imported dataset (imported with `{}`). */
  function Info(env: Mapshaper, g: Value): (r: Result<Value>)
    ensures !ValidateGeojson(g) ==> r == Fail(Stop(InvalidInput))
    ensures ValidateGeojson(g) && GeojsonToDataset(env, g, EmptyObject).Fail? ==>
              r == Fail(GeojsonToDataset(env, g, EmptyObject).error)
    ensures ValidateGeojson(g) ==> (r.Ok? <==> GeojsonToDataset(env, g, EmptyObject).Ok?)
    ensures r.Ok? ==> r.value == env.printInfo(GeojsonToDataset(env, g, EmptyObject).value)
  {
    if !ValidateGeojson(g) then Fail(Stop(InvalidInput))
    else
      var ds :- GeojsonToDataset(env, g, EmptyObject);
      Ok(env.printInfo(ds))
  }

  // ---------------------------------------------------------------------------
  // Two-input entry points: the target is validated and imported first, and
  // both inputs are imported with default options.

  function ImportPair(env: Mapshaper, target: Value, other: Value): (r: Result<(Dataset, Dataset)>)
    ensures GeojsonToDataset(env, target, EmptyObject).Fail? ==> r == Fail(GeojsonToDataset(env, target, EmptyObject).error)
    ensures GeojsonToDataset(env, target, EmptyObject).Ok? && GeojsonToDataset(env, other, EmptyObject).Fail? ==>
              r == Fail(GeojsonToDataset(env, other, EmptyObject).error)
    ensures r.Ok? <==> GeojsonToDataset(env, target, EmptyObject).Ok? && GeojsonToDataset(env, other, EmptyObject).Ok?
    ensures r.Ok? ==> r.value == (GeojsonToDataset(env, target, EmptyObject).value, GeojsonToDataset(env, other, EmptyObject).value)
  {
    var t :- GeojsonToDataset(env, target, EmptyObject);
    var o :- GeojsonToDataset(env, other, EmptyObject);
    Ok((t, o))
  }

  /** clip: the result is the command's layers over the TARGET's arcs and
      metadata (as the command left the target dataset); the clip input's
      pool never becomes the output pool. */
  function Clip(env: Mapshaper, target: Value, clipper: Value, options: Value): (r: Result<FeatureCollection>)
    ensures !ValidateGeojson(target) ==> r == Fail(Stop(InvalidTarget))
    ensures ValidateGeojson(target) && !ValidateGeojson(clipper) ==> r == Fail(Stop(InvalidClip))
    ensures ValidateGeojson(target) && ValidateGeojson(clipper) && ImportPair(env, target, clipper).Fail? ==>
              r == Fail(ImportPair(env, target, clipper).error)
    ensures ValidateGeojson(target) && ValidateGeojson(clipper) && ImportPair(env, target, clipper).Ok? ==>
              var (t, c) := ImportPair(env, target, clipper).value;
              var after := env.clipLayers(t.layers, c.layers[0], t, c, Default(options));
              (r.Ok? <==> |after.result| > 0) && (|after.result| == 0 ==> r == Fail(Stop(NoLayersFound)))
    ensures r.Ok? ==>
              var (t, c) := ImportPair(env, target, clipper).value;
              var after := env.clipLayers(t.layers, c.layers[0], t, c, Default(options));
              |after.result| > 0 &&
              r.value.features == env.exportLayer(after.result[0], DatasetOver(after.result, after.dataset), Default(options))
  {
    if !ValidateGeojson(target) then Fail(Stop(InvalidTarget))
    else if !ValidateGeojson(clipper) then Fail(Stop(InvalidClip))
    else
      var (t, c) :- ImportPair(env, target, clipper);
      var o := Default(options);
      var after := env.clipLayers(t.layers, c.layers[0], t, c, o);
      DatasetToGeojson(env, DatasetOver(after.result, after.dataset), o)
  }

  /** divide: the divided layer alone, over the target's arcs and metadata. */
  function Divide(env: Mapshaper, target: Value, divider: Value, options: Value): (r: Result<FeatureCollection>)
    ensures !ValidateGeojson(target) ==> r == Fail(Stop(InvalidTarget))
    ensures ValidateGeojson(target) && ValidateGeojson(divider) && ImportPair(env, target, divider).Fail? ==>
              r == Fail(ImportPair(env, target, divider).error)
    ensures ValidateGeojson(target) && !ValidateGeojson(divider) ==> r == Fail(Stop(InvalidDivider))
    ensures ValidateGeojson(target) && ValidateGeojson(divider) ==> (r.Ok? <==> ImportPair(env, target, divider).Ok?)
    ensures r.Ok? ==>
              var (t, d) := ImportPair(env, target, divider).value;
              var after := env.divideLayer(t.layers[0], d.layers[0], t, Default(options));
              r.value == ExportAlone(env, after.result, after.dataset, Default(options))
  {
    if !ValidateGeojson(target) then Fail(Stop(InvalidTarget))
    else if !ValidateGeojson(divider) then Fail(Stop(InvalidDivider))
    else
      var (t, d) :- ImportPair(env, target, divider);
      var o := Default(options);
      var after := env.divideLayer(t.layers[0], d.layers[0], t, o);
      DatasetToGeojson(env, DatasetOver([after.result], after.dataset), o)
  }

  datatype Joiner = ExactJoin | FuzzyJoin

  function JoinCommand(env: Mapshaper, kind: Joiner): (Layer, Layer, Value) -> Layer {
    if kind == ExactJoin then env.join else env.fuzzyJoin
  }

  /** join and fuzzyJoin: the command rewrites the target's first layer in
      place and the target dataset itself is exported. */
  function Join(env: Mapshaper, kind: Joiner, target: Value, source: Value, options: Value): (r: Result<FeatureCollection>)
    ensures !ValidateGeojson(target) ==> r == Fail(Stop(InvalidTarget))
    ensures ValidateGeojson(target) && ValidateGeojson(source) && ImportPair(env, target, source).Fail? ==>
              r == Fail(ImportPair(env, target, source).error)
    ensures ValidateGeojson(target) && !ValidateGeojson(source) ==> r == Fail(Stop(InvalidSource))
    ensures ValidateGeojson(target) && ValidateGeojson(source) ==> (r.Ok? <==> ImportPair(env, target, source).Ok?)
    ensures r.Ok? ==>
              var (t, s) := ImportPair(env, target, source).value;
              var joined := JoinCommand(env, kind)(t.layers[0], s.layers[0], Default(options));
              r.value.features == env.exportLayer(joined, WithFirstLayer(t, joined), Default(options))
  {
    if !ValidateGeojson(target) then Fail(Stop(InvalidTarget))
    else if !ValidateGeojson(source) then Fail(Stop(InvalidSource))
    else
      var (t, s) :- ImportPair(env, target, source);
      var o := Default(options);
      var joined := JoinCommand(env, kind)(t.layers[0], s.layers[0], o);
      DatasetToGeojson(env, WithFirstLayer(t, joined), o)
  }

  /** A join copies attributes only: the source's arcs and later layers
      never influence the output, which depends on the source only through
      its first layer. */
  lemma JoinSeesOnlySourceFirstLayer(env: Mapshaper, kind: Joiner, target: Value, s1: Value, s2: Value, options: Value)
    requires ValidateGeojson(s1) && ValidateGeojson(s2)
    requires GeojsonToDataset(env, s1, EmptyObject).Ok? && GeojsonToDataset(env, s2, EmptyObject).Ok?
    requires GeojsonToDataset(env, s1, EmptyObject).value.layers[0] == GeojsonToDataset(env, s2, EmptyObject).value.layers[0]
    ensures Join(env, kind, target, s1, options) == Join(env, kind, target, s2, options)
  {
  }

  /** The empty dataset rectangle, graticule and pointGrid start from. */
  const EmptyBase: Dataset := Dataset([], None, EmptyObject)

  /** rectangle, graticule and pointGrid: the command builds a layer from the
      options alone; the output is that layer over whatever arcs and info
      the command left on the base dataset. These never fail. */
  function Generate(env: Mapshaper, gen: Generator, options: Value): (r: Result<FeatureCollection>)
    ensures r.Ok?
    ensures var after := env.generate(gen)(EmptyBase, Default(options));
            r.value.features ==
              env.exportLayer(after.result, Dataset([after.result], after.dataset.arcs, after.dataset.info), Default(options))
  {
    var o := Default(options);
    var after := env.generate(gen)(EmptyBase, o);
    DatasetToGeojson(env, Dataset([after.result], after.dataset.arcs, after.dataset.info), o)
  }

  // ---------------------------------------------------------------------------
  // merge and mergeLayers

  /** The first input that fails validation, at or after `i`. */
  function FirstInvalidFrom(items: seq<Value>, i: nat): (k: Option<nat>)
    requires i <= |items|
    ensures k.Some? ==> i <= k.value < |items| && !ValidateGeojson(items[k.value])
    ensures k.Some? ==> forall j :: i <= j < k.value ==> ValidateGeojson(items[j])
    ensures k.None? ==> forall j :: i <= j < |items| ==> ValidateGeojson(items[j])
    decreases |items| - i
  {
    if i == |items| then None
    else if !ValidateGeojson(items[i]) then Some(i)
    else FirstInvalidFrom(items, i + 1)
  }

  function FirstInvalid(items: seq<Value>): Option<nat> {
    FirstInvalidFrom(items, 0)
  }

  /** merge's validation loop: stops at the first invalid element. */
  method FindFirstInvalid(items: seq<Value>) returns (k: Option<nat>)
    ensures k == FirstInvalid(items)
  {
    var i := 0;
    while i < |items|
      invariant 0 <= i <= |items|
      invariant FirstInvalidFrom(items, i) == FirstInvalid(items)
    {
      if !ValidateGeojson(items[i]) {
        return Some(i);
      }
      i := i + 1;
    }
    return None;
  }

  /** `geojsonArray.map(geojson => geojsonToDataset(geojson))`: every input
      imported with default options, the first failure aborting. */
  function ImportAll(env: Mapshaper, items: seq<Value>): (r: Result<seq<Dataset>>)
    ensures r.Ok? <==> forall i :: 0 <= i < |items| ==> GeojsonToDataset(env, items[i], EmptyObject).Ok?
    ensures r.Fail? ==>
              exists k :: 0 <= k < |items| && GeojsonToDataset(env, items[k], EmptyObject).Fail? &&
                (forall j :: 0 <= j < k ==> GeojsonToDataset(env, items[j], EmptyObject).Ok?) &&
                r.error == GeojsonToDataset(env, items[k], EmptyObject).error
    ensures r.Ok? ==> |r.value| == |items|
    ensures r.Ok? ==> forall i :: 0 <= i < |items| ==> r.value[i] == GeojsonToDataset(env, items[i], EmptyObject).value
  {
    if items == [] then Ok([])
    else
      var first :- GeojsonToDataset(env, items[0], EmptyObject);
      var rest :- ImportAll(env, items[1..]);
      Ok([first] + rest)
  }

  /** All layers of all datasets, in input order. */
  function Flatten(dss: seq<Dataset>): seq<Layer> {
    if dss == [] then [] else dss[0].layers + Flatten(dss[1..])
  }

  lemma {:induction false} FlattenConcat(a: seq<Dataset>, b: seq<Dataset>)
    ensures Flatten(a + b) == Flatten(a) + Flatten(b)
  {
    if a != [] {
      assert (a + b)[1..] == a[1..] + b;
      FlattenConcat(a[1..], b);
    } else {
      assert a + b == b;
    }
  }

  /** Input `i`'s layers sit, unchanged and contiguous, after the layers of
      the inputs before it and before those of the inputs after it. */
  lemma {:induction false} FlattenInInputOrder(dss: seq<Dataset>, i: nat)
    requires i < |dss|
    ensures Flatten(dss) == Flatten(dss[..i]) + dss[i].layers + Flatten(dss[i + 1..])
  {
    if i == 0 {
      assert dss[..0] == [];
    } else {
      var rest := dss[1..];
      FlattenInInputOrder(rest, i - 1);
      assert rest[..i - 1] == dss[..i][1..];
      assert rest[i - 1] == dss[i];
      assert rest[i..] == dss[i + 1..];
    }
  }

  lemma {:induction false} FlattenMembers(dss: seq<Dataset>, l: Layer)
    ensures l in Flatten(dss) <==> exists i :: 0 <= i < |dss| && l in dss[i].layers
  {
    if dss != [] {
      FlattenMembers(dss[1..], l);
      if l in Flatten(dss[1..]) {
        var i :| 0 <= i < |dss[1..]| && l in dss[1..][i].layers;
        assert l in dss[i + 1].layers;
      }
      if exists i :: 0 <= i < |dss| && l in dss[i].layers {
        var i :| 0 <= i < |dss| && l in dss[i].layers;
        if i > 0 {
          assert l in dss[1..][i - 1].layers;
        }
      }
    }
  }

  /** merge's concatenation loop (`mergedLayers.push(...dataset.layers)`). */
  method ConcatLayers(dss: seq<Dataset>) returns (merged: seq<Layer>)
    ensures merged == Flatten(dss)
  {
    merged := [];
    var i := 0;
    while i < |dss|
      invariant 0 <= i <= |dss|
      invariant merged == Flatten(dss[..i])
    {
      FlattenConcat(dss[..i], [dss[i]]);
      assert dss[..i + 1] == dss[..i] + [dss[i]];
      merged := merged + dss[i].layers;
      i := i + 1;
    }
    assert dss[..|dss|] == dss;
  }

  /** The dataset merge exports: all layers in input order, or the single
      layer mergeLayers makes of them unless `merge_layers` is exactly
      `false`; arcs and info come from the first input. */
  function MergedDataset(env: Mapshaper, datasets: seq<Dataset>, mergeFlag: Value, opts: Value): (r: Dataset)
    requires |datasets| > 0
    ensures r.arcs == datasets[0].arcs
    ensures r.info == InfoOrEmpty(datasets[0].info)
    ensures mergeFlag == Bool(false) ==> r.layers == Flatten(datasets)
    ensures mergeFlag != Bool(false) ==> r.layers == [env.mergeLayers(Flatten(datasets), opts)]
  {
    var layers := Flatten(datasets);
    DatasetOver(if mergeFlag == Bool(false) then layers else [env.mergeLayers(layers, opts)], datasets[0])
  }

  /** merge as a function of its inputs. */
  function MergeResult(env: Mapshaper, inputs: Value, options: Value): (r: Result<FeatureCollection>)
    ensures !inputs.Arr? || |inputs.items| == 0 ==> r == Fail(Stop(NonEmptyArrayRequired))
    ensures inputs.Arr? && FirstInvalid(inputs.items).Some? ==>
              r == Fail(Stop(InvalidAtIndex(FirstInvalid(inputs.items).value)))
    ensures inputs.Arr? && |inputs.items| > 0 && FirstInvalid(inputs.items).None? && ImportAll(env, inputs.items).Fail? ==>
              r == Fail(ImportAll(env, inputs.items).error)
    ensures inputs.Arr? && |inputs.items| > 0 && FirstInvalid(inputs.items).None? && ImportAll(env, inputs.items).Ok? ==>
              (r.Ok? <==> !options.Null?) && (options.Null? ==> r.error.TypeError?)
    ensures r.Ok? ==> inputs.Arr? && |inputs.items| > 0 && ImportAll(env, inputs.items).Ok?
    ensures r.Ok? ==> forall i :: 0 <= i < |inputs.items| ==> ValidateGeojson(inputs.items[i])
    ensures r.Ok? ==>
              var datasets := ImportAll(env, inputs.items).value;
              var flag := Get(Default(options), "merge_layers");
              r == DatasetToGeojson(env, MergedDataset(env, datasets, flag, Default(options)), Default(options))
  {
    var o := Default(options);
    if !inputs.Arr? || |inputs.items| == 0 then Fail(Stop(NonEmptyArrayRequired))
    else match FirstInvalid(inputs.items)
      case Some(i) => Fail(Stop(InvalidAtIndex(i)))
      case None =>
        var datasets :- ImportAll(env, inputs.items);
        var flag :- ReadProp(o, "merge_layers");
        DatasetToGeojson(env, MergedDataset(env, datasets, flag, o), o)
  }

  /** merge, written as the source writes it: validate in a loop, import,
      concatenate in a loop, then collapse unless merge_layers is false. */
  method Merge(env: Mapshaper, inputs: Value, options: Value) returns (r: Result<FeatureCollection>)
    ensures r == MergeResult(env, inputs, options)
  {
    var o := Default(options);
    if !inputs.Arr? || |inputs.items| == 0 {
      return Fail(Stop(NonEmptyArrayRequired));
    }
    var bad := FindFirstInvalid(inputs.items);
    if bad.Some? {
      return Fail(Stop(InvalidAtIndex(bad.value)));
    }
    var imported := ImportAll(env, inputs.items);
    if imported.Fail? {
      return Fail(imported.error);
    }
    var datasets := imported.value;
    var mergedLayers := ConcatLayers(datasets);
    var resultDataset := DatasetOver(mergedLayers, datasets[0]);
    var flag := ReadProp(o, "merge_layers");
    if flag.Fail? {
      return Fail(flag.error);
    }
    if flag.value != Bool(false) {
      var mergedLayer := env.mergeLayers(mergedLayers, o);
      resultDataset := resultDataset.(layers := [mergedLayer]);
    }
    r := DatasetToGeojson(env, resultDataset, o);
  }

  /** Without a `merge_layers` option (or with any value but `false`),
      merge collapses the inputs' layers, in input order, into one layer. */
  lemma MergeCollapsesUnlessFalse(env: Mapshaper, inputs: Value, options: Value)
    requires MergeResult(env, inputs, options).Ok?
    requires Get(Default(options), "merge_layers") != Bool(false)
    ensures var datasets := ImportAll(env, inputs.items).value;
            var merged := env.mergeLayers(Flatten(datasets), Default(options));
            MergeResult(env, inputs, options).value.features ==
              env.exportLayer(merged, DatasetOver([merged], datasets[0]), Default(options))
  {
  }

  /** merge reuses the first input's arc pool for every layer, so with
      `merge_layers: false` the merged dataset is consistent exactly when
      every input's layers are valid in the FIRST input's pool. */
  lemma MergeReusesFirstPool(env: Mapshaper, datasets: seq<Dataset>, opts: Value)
    requires |datasets| > 0
    ensures Consistent(MergedDataset(env, datasets, Bool(false), opts)) <==>
              forall i, l :: 0 <= i < |datasets| && l in datasets[i].layers ==>
                LayerRefsValid(l, ArcCount(datasets[0].arcs))
  {
    var n := ArcCount(datasets[0].arcs);
    forall l | l in Flatten(datasets) ensures exists i :: 0 <= i < |datasets| && l in datasets[i].layers {
      FlattenMembers(datasets, l);
    }
    forall i, l | 0 <= i < |datasets| && l in datasets[i].layers ensures l in Flatten(datasets) {
      FlattenMembers(datasets, l);
    }
  }

  /** Two inputs that are each consistent on their own can merge into an
      inconsistent dataset: a line layer's arc 0 means nothing in a
      points-only first input's (absent) pool. */
  lemma MergeCanBreakTopology(env: Mapshaper)
    ensures var points := Layer(None, Some(PointGeometry), [Some(PointShape([Point(0.0, 0.0)]))], [EmptyObject]);
            var line := Layer(None, Some(PolylineGeometry), [Some(ArcShape([[0]]))], [EmptyObject]);
            var first := Dataset([points], None, EmptyObject);
            var second := Dataset([line], Some(ArcPool([[Point(0.0, 0.0), Point(1.0, 1.0)]])), EmptyObject);
            Consistent(first) && Consistent(second) &&
            !Consistent(MergedDataset(env, [first, second], Bool(false), EmptyObject))
  {
    var points := Layer(None, Some(PointGeometry), [Some(PointShape([Point(0.0, 0.0)]))], [EmptyObject]);
    var line := Layer(None, Some(PolylineGeometry), [Some(ArcShape([[0]]))], [EmptyObject]);
    var first := Dataset([points], None, EmptyObject);
    var second := Dataset([line], Some(ArcPool([[Point(0.0, 0.0), Point(1.0, 1.0)]])), EmptyObject);
    assert ShapeRefsValid(ArcShape([[0]]), 1);
    assert Consistent(first) && Consistent(second);
    MergeReusesFirstPool(env, [first, second], EmptyObject);
    assert line in [first, second][1].layers;
    assert line.shapes[0] == Some(ArcShape([[0]]));
    assert [0] in ArcShape([[0]]).parts && 0 in [0] && !ArcRefValid(0, 0);
    assert !ShapeRefsValid(ArcShape([[0]]), 0);
    assert !LayerRefsValid(line, 0);
    assert ArcCount(first.arcs) == 0;
    assert !Consistent(MergedDataset(env, [first, second], Bool(false), EmptyObject));
  }

  /** The options mergeLayers hands to merge for an array of inputs. */
  function MergeLayersOptions(options: Value): (opts: Value)
    ensures opts.Obj? && Get(opts, "merge-layers") == Bool(true)
  {
    ExtendWith(Default(options), "merge-layers", Bool(true))
  }

  /** mergeLayers as a function of its inputs. */
  function MergeLayersResult(env: Mapshaper, g: Value, options: Value): (r: Result<FeatureCollection>)
    ensures g.Arr? ==> r == MergeResult(env, g, MergeLayersOptions(options))
    ensures !g.Arr? ==> r == MergeLayersOfOne(env, g, options)
  {
    if g.Arr? then MergeResult(env, g, MergeLayersOptions(options))
    else MergeLayersOfOne(env, g, options)
  }

  /** mergeLayers: an array goes through merge; a single object has its own
      layers collapsed. */
  method MergeLayers(env: Mapshaper, g: Value, options: Value) returns (r: Result<FeatureCollection>)
    ensures r == MergeLayersResult(env, g, options)
  {
    if g.Arr? {
      r := Merge(env, g, MergeLayersOptions(options));
    } else {
      r := MergeLayersOfOne(env, g, options);
    }
  }

  // ---------------------------------------------------------------------------
  // Properties spanning the entry points

  /** An input that fails validation is refused with the entry point's fixed
      message before anything is imported or any command runs: the result is
      the same whatever the importer, the exporter and the commands do. */
  lemma RejectedBeforeImport(env1: Mapshaper, env2: Mapshaper, g: Value, x: Value, options: Value)
    requires !ValidateGeojson(g)
    ensures forall op :: RunUniform(env1, op, g, options) == RunUniform(env2, op, g, options) == Fail(Stop(InvalidInput))
    ensures Dissolve2(env1, g, options) == Dissolve2(env2, g, options) == Fail(Stop(InvalidInput))
    ensures Buffer(env1, g, x, options) == Buffer(env2, g, x, options) == Fail(Stop(InvalidInput))
    ensures Simplify(env1, g, options) == Simplify(env2, g, options) == Fail(Stop(InvalidInput))
    ensures Filter(env1, g, options) == Filter(env2, g, options) == Fail(Stop(InvalidInput))
    ensures Calc(env1, g, x, options) == Calc(env2, g, x, options) == Fail(Stop(InvalidInput))
    ensures Each(env1, g, x, options) == Each(env2, g, x, options) == Fail(Stop(InvalidInput))
    ensures Split(env1, g, options) == Split(env2, g, options) == Fail(Stop(InvalidInput))
    ensures !g.Arr? ==> MergeLayersResult(env1, g, options) == MergeLayersResult(env2, g, options) == Fail(Stop(InvalidInput))
    ensures Info(env1, g) == Info(env2, g) == Fail(Stop(InvalidInput))
  {
  }

  /** The same for the entry points with a second input: an invalid target
      is refused with "Invalid target GeoJSON" before anything else. */
  lemma TargetRejectedBeforeImport(env1: Mapshaper, env2: Mapshaper, g: Value, other: Value, options: Value)
    requires !ValidateGeojson(g)
    ensures Clip(env1, g, other, options) == Clip(env2, g, other, options) == Fail(Stop(InvalidTarget))
    ensures Divide(env1, g, other, options) == Divide(env2, g, other, options) == Fail(Stop(InvalidTarget))
    ensures forall kind :: Join(env1, kind, g, other, options) == Join(env2, kind, g, other, options) == Fail(Stop(InvalidTarget))
  {
    assert Clip(env1, g, other, options) == Fail(Stop(InvalidTarget));
    assert Clip(env2, g, other, options) == Fail(Stop(InvalidTarget));
    assert Divide(env1, g, other, options) == Fail(Stop(InvalidTarget));
    assert Divide(env2, g, other, options) == Fail(Stop(InvalidTarget));
    forall kind
      ensures Join(env1, kind, g, other, options) == Join(env2, kind, g, other, options) == Fail(Stop(InvalidTarget))
    {
      assert Join(env1, kind, g, other, options) == Fail(Stop(InvalidTarget));
      assert Join(env2, kind, g, other, options) == Fail(Stop(InvalidTarget));
    }
  }

  /** The error cases of the API's own tests: an object without a GeoJSON
      type, null and a string are all "Invalid GeoJSON input"; buffer
      without a distance and filter without an expression are refused. */
  lemma ErrorHandlingExamples(env: Mapshaper)
    ensures Dissolve2(env, Obj([("invalid", Str("object"))]), Undefined) == Fail(Stop(InvalidInput))
    ensures RunUniform(env, Dissolve, Obj([("invalid", Str("object"))]), Undefined) == Fail(Stop(InvalidInput))
    ensures RunUniform(env, Dissolve, Null, Undefined) == Fail(Stop(InvalidInput))
    ensures RunUniform(env, Dissolve, Str("not an object"), Undefined) == Fail(Stop(InvalidInput))
    ensures var point := Obj([("type", Str("Feature")),
                              ("geometry", Obj([("type", Str("Point")), ("coordinates", Arr([Num(0.0), Num(0.0)]))]))]);
            Buffer(env, point, Undefined, Undefined) == Fail(Stop(BufferDistanceRequired)) &&
            Filter(env, point, Undefined) == Fail(Stop(FilterExpressionRequired))
  {
    var point := Obj([("type", Str("Feature")),
                      ("geometry", Obj([("type", Str("Point")), ("coordinates", Arr([Num(0.0), Num(0.0)]))]))]);
    assert Get(point, "type") == ValidTypes[1];
  }

  /** The calc call of the API's own tests builds
      "area = width * height; perimeter = 2 * (width + height)". */
  lemma CalcExample(numberText: real -> string)
    ensures CalcExpression(Obj([("area", Str("width * height")), ("perimeter", Str("2 * (width + height)"))]), numberText) ==
              "area" + " = " + "width * height" + "; " + "perimeter" + " = " + "2 * (width + height)"
  {
    var entries := [("area", Str("width * height")), ("perimeter", Str("2 * (width + height)"))];
    var lines := CalcLines(entries, numberText);
    assert Entries(Obj(entries)) == entries;
    assert lines[0] == "area" + " = " + "width * height";
    assert lines[1] == "perimeter" + " = " + "2 * (width + height)";
    assert JoinWith("; ", lines[1..]) == lines[1];
    assert JoinWith("; ", lines) == lines[0] + "; " + lines[1];
  }
}
