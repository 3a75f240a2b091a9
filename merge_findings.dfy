/**
 * Two defects in merge and mergeLayers (src/api/mapshaper-memory-api.mjs),
 * each shown on the code as written and then corrected:
 *
 * 1. `merge(inputs, {merge_layers: false})` keeps every input's layers in
 *    the merged dataset but exports only its first layer, so every input
 *    after the first is dropped from the output.
 * 2. `mergeLayers(array, options)` asks merge to collapse by setting
 *    `merge-layers` (hyphen), a key merge never reads; merge reads
 *    `merge_layers`, so a caller's `merge_layers: false` still wins.
 */
module MergeFindings {
  import opened Outcomes
  import opened JsValue
  import opened MapData
  import opened Collaborators
  import opened ApiUtils
  import opened MemoryApi

  // ---------------------------------------------------------------------------
  // Finding 1: merge_layers === false

  /** merge as written, unmerged: the output is the first input's first layer
      and nothing else, whatever the later inputs hold. */
  lemma MergeUnmergedExportsFirstLayerOnly(env: Mapshaper, inputs: Value, options: Value)
    requires MergeResult(env, inputs, options).Ok?
    requires Get(Default(options), "merge_layers") == Bool(false)
    ensures var datasets := ImportAll(env, inputs.items).value;
            var o := Default(options);
            MergeResult(env, inputs, options).value.features ==
              env.exportLayer(datasets[0].layers[0], MergedDataset(env, datasets, Bool(false), o), o)
  {
    var datasets := ImportAll(env, inputs.items).value;
    assert GeojsonToDataset(env, inputs.items[0], EmptyObject).Ok?;
    assert Flatten(datasets)[0] == datasets[0].layers[0];
  }

  /** Every layer of one dataset, exported against that dataset. */
  function ExportLayers(env: Mapshaper, layers: seq<Layer>, ds: Dataset, o: Value): seq<Value> {
    if layers == [] then [] else env.exportLayer(layers[0], ds, o) + ExportLayers(env, layers[1..], ds, o)
  }

  /** Every layer of every dataset, each exported against its own dataset
      (and so against its own arc pool), in input order. */
  function ExportEach(env: Mapshaper, datasets: seq<Dataset>, o: Value): seq<Value> {
    if datasets == [] then []
    else ExportLayers(env, datasets[0].layers, datasets[0], o) + ExportEach(env, datasets[1..], o)
  }

  /** merge with the unmerged branch corrected: all layers of all inputs are
      exported. Every other branch, including every error, is unchanged. */
  function MergeCorrected(env: Mapshaper, inputs: Value, options: Value): (r: Result<FeatureCollection>)
    ensures r.Fail? <==> MergeResult(env, inputs, options).Fail?
    ensures r.Fail? ==> r == MergeResult(env, inputs, options)
    ensures Get(Default(options), "merge_layers") != Bool(false) ==> r == MergeResult(env, inputs, options)
  {
    var written := MergeResult(env, inputs, options);
    if written.Ok? && Get(Default(options), "merge_layers") == Bool(false) then
      Ok(FeatureCollection(ExportEach(env, ImportAll(env, inputs.items).value, Default(options))))
    else written
  }

  /** Dataset `i`'s exports sit between those of the datasets before and
      after it. */
  lemma {:induction false} ExportEachAround(env: Mapshaper, datasets: seq<Dataset>, i: nat, o: Value)
    requires i < |datasets|
    ensures ExportEach(env, datasets, o) ==
              ExportEach(env, datasets[..i], o) + ExportLayers(env, datasets[i].layers, datasets[i], o) +
              ExportEach(env, datasets[i + 1..], o)
  {
    if i == 0 {
      assert datasets[..0] == [];
    } else {
      var rest := datasets[1..];
      var prefix := datasets[..i];
      var head := ExportLayers(env, datasets[0].layers, datasets[0], o);
      var mid := ExportLayers(env, datasets[i].layers, datasets[i], o);
      var after := ExportEach(env, datasets[i + 1..], o);
      assert prefix[0] == datasets[0] && prefix[1..] == rest[..i - 1];
      assert rest[i - 1] == datasets[i] && rest[i..] == datasets[i + 1..];
      var earlier := ExportEach(env, rest[..i - 1], o);
      ExportEachAround(env, rest, i - 1, o);
      assert ExportEach(env, rest, o) == earlier + mid + after;
      assert ExportEach(env, prefix, o) == head + earlier;
      assert ExportEach(env, datasets, o) == head + (earlier + mid + after);
      assert head + (earlier + mid + after) == (head + earlier) + mid + after;
    }
  }

  /** A dataset's own collection opens the export of all its layers. */
  lemma ExportLayersStartsWithCollection(env: Mapshaper, d: Dataset, o: Value)
    requires |d.layers| > 0
    ensures DatasetToGeojson(env, d, o).Ok?
    ensures ExportLayers(env, d.layers, d, o) ==
              DatasetToGeojson(env, d, o).value.features + ExportLayers(env, d.layers[1..], d, o)
  {
  }

  /** Dataset `i`'s whole collection sits after everything the earlier
      datasets export and before the rest of its layers and everything the
      later datasets export. */
  lemma ExportEachKeepsCollection(env: Mapshaper, datasets: seq<Dataset>, i: nat, o: Value)
    requires i < |datasets| && |datasets[i].layers| > 0
    ensures DatasetToGeojson(env, datasets[i], o).Ok?
    ensures ExportEach(env, datasets, o) ==
              ExportEach(env, datasets[..i], o) + DatasetToGeojson(env, datasets[i], o).value.features +
              ExportLayers(env, datasets[i].layers[1..], datasets[i], o) + ExportEach(env, datasets[i + 1..], o)
  {
    var d := datasets[i];
    ExportEachAround(env, datasets, i, o);
    ExportLayersStartsWithCollection(env, d, o);
    var before := ExportEach(env, datasets[..i], o);
    var after := ExportEach(env, datasets[i + 1..], o);
    var first := DatasetToGeojson(env, d, o).value.features;
    var more := ExportLayers(env, d.layers[1..], d, o);
    assert before + (first + more) + after == before + first + more + after;
  }

  /** Corrected merge, unmerged: the output is every layer of every input,
      each exported against its own input. */
  lemma CorrectedUnmergedExportsEach(env: Mapshaper, inputs: Value, options: Value)
    requires MergeCorrected(env, inputs, options).Ok?
    requires Get(Default(options), "merge_layers") == Bool(false)
    ensures MergeResult(env, inputs, options).Ok? && inputs.Arr?
    ensures MergeCorrected(env, inputs, options).value.features ==
              ExportEach(env, ImportAll(env, inputs.items).value, Default(options))
  {
  }

  /** Corrected merge, unmerged: input `i`'s collection appears whole, after
      everything the earlier inputs contribute and before everything the
      later ones contribute. */
  lemma CorrectedMergeKeepsEveryInput(env: Mapshaper, inputs: Value, options: Value, i: nat)
    requires inputs.Arr? && MergeCorrected(env, inputs, options).Ok?
    requires Get(Default(options), "merge_layers") == Bool(false)
    requires i < |inputs.items|
    ensures var datasets := ImportAll(env, inputs.items).value;
            var o := Default(options);
            DatasetToGeojson(env, datasets[i], o).Ok? &&
            MergeCorrected(env, inputs, options).value.features ==
              ExportEach(env, datasets[..i], o) + DatasetToGeojson(env, datasets[i], o).value.features +
              ExportLayers(env, datasets[i].layers[1..], datasets[i], o) + ExportEach(env, datasets[i + 1..], o)
  {
    CorrectedUnmergedExportsEach(env, inputs, options);
    var datasets := ImportAll(env, inputs.items).value;
    assert GeojsonToDataset(env, inputs.items[i], EmptyObject).Ok?;
    ExportEachKeepsCollection(env, datasets, i, Default(options));
  }

  // ---------------------------------------------------------------------------
  // Finding 2: mergeLayers sets a key merge never reads

  /** As written, the flag mergeLayers adds leaves the key merge reads as the
      caller set it. */
  lemma MergeLayersFlagNotRead(options: Value)
    requires DistinctKeys(PropsOf(Default(options)))
    ensures Get(MergeLayersOptions(options), "merge_layers") == Get(Default(options), "merge_layers")
  {
    assert "merge_layers"[5] != "merge-layers"[5];
    ExtendWithKeepsOther(Default(options), "merge-layers", Bool(true), "merge_layers");
  }

  /** As written: an array plus `merge_layers: false` is not merged at all;
      the output is the first input's first layer, exactly as merge's. */
  lemma MergeLayersHonoursCallerFalse(env: Mapshaper, g: Value, options: Value)
    requires g.Arr? && options.Obj? && DistinctKeys(options.props)
    requires Get(options, "merge_layers") == Bool(false)
    requires MergeLayersResult(env, g, options).Ok?
    ensures var datasets := ImportAll(env, g.items).value;
            var o := MergeLayersOptions(options);
            MergeLayersResult(env, g, options).value.features ==
              env.exportLayer(datasets[0].layers[0], MergedDataset(env, datasets, Bool(false), o), o)
  {
    MergeLayersFlagNotRead(options);
    MergeUnmergedExportsFirstLayerOnly(env, g, MergeLayersOptions(options));
  }

  /** The options mergeLayers should hand to merge. */
  function MergeLayersOptionsCorrected(options: Value): (opts: Value)
    ensures opts.Obj? && Get(opts, "merge_layers") == Bool(true)
  {
    ExtendWith(Default(options), "merge_layers", Bool(true))
  }

  /** mergeLayers with the key corrected (and merge corrected). */
  function MergeLayersCorrected(env: Mapshaper, g: Value, options: Value): (r: Result<FeatureCollection>)
    ensures g.Arr? ==> r == MergeCorrected(env, g, MergeLayersOptionsCorrected(options))
    ensures !g.Arr? ==> r == MergeLayersResult(env, g, options)
  {
    if g.Arr? then MergeCorrected(env, g, MergeLayersOptionsCorrected(options))
    else MergeLayersOfOne(env, g, options)
  }

  /** Corrected mergeLayers on an array always collapses all inputs' layers,
      in input order, into one, whatever the caller's options say. */
  lemma CorrectedMergeLayersAlwaysCollapses(env: Mapshaper, g: Value, options: Value)
    requires g.Arr? && MergeLayersCorrected(env, g, options).Ok?
    ensures var datasets := ImportAll(env, g.items).value;
            var o := MergeLayersOptionsCorrected(options);
            var merged := env.mergeLayers(Flatten(datasets), o);
            MergeLayersCorrected(env, g, options).value.features ==
              env.exportLayer(merged, DatasetOver([merged], datasets[0]), o)
  {
    MergeCollapsesUnlessFalse(env, g, MergeLayersOptionsCorrected(options));
  }

  // ---------------------------------------------------------------------------
  // Both findings on concrete input: an importer that turns each Feature into
  // a one-feature layer, an exporter that returns a layer's records, and a
  // mergeLayers that concatenates records.

  function AllRecords(layers: seq<Layer>): seq<Value> {
    if layers == [] then [] else layers[0].data + AllRecords(layers[1..])
  }

  const RecordEnv: Mapshaper := Mapshaper(
    (g: Value, o: Value) => Some(Dataset([Layer(None, None, [None], [g])], None, EmptyObject)),
    (l: Layer, ds: Dataset, o: Value) => l.data,
    (x: real) => "",
    (op: UniformOp) => (l: Layer, a: Option<ArcPool>, o: Value) => Effect(l, ArcPool([]), None),
    (l: Layer, a: Option<ArcPool>, o: Value) => Effect(l, ArcPool([]), None),
    (l: Layer, a: Option<ArcPool>, o: Value) => Effect(l, ArcPool([]), None),
    (ls: seq<Layer>, ds: Dataset, o: Value) => After(ls, ds),
    (ls: seq<Layer>, c: Layer, t: Dataset, cd: Dataset, o: Value) => After(ls, t),
    (l: Layer, d: Layer, t: Dataset, o: Value) => After(l, t),
    (l: Layer, a: Option<ArcPool>, o: Value) => Effect(l, ArcPool([]), None),
    (l: Layer, ds: Dataset, e: Value, o: Value) => ds,
    (l: Layer, s: Layer, o: Value) => l,
    (l: Layer, s: Layer, o: Value) => l,
    (l: Layer, o: Value) => [l],
    (ls: seq<Layer>, o: Value) => Layer(None, None, [], AllRecords(ls)),
    (gen: Generator) => (ds: Dataset, o: Value) => After(Layer(None, None, [], []), ds),
    (ds: Dataset) => EmptyObject)

  const FeatureOne: Value := Obj([("type", Str("Feature")), ("id", Num(1.0))])
  const FeatureTwo: Value := Obj([("type", Str("Feature")), ("id", Num(2.0))])
  const LayerOne: Layer := Layer(None, None, [None], [FeatureOne])
  const LayerTwo: Layer := Layer(None, None, [None], [FeatureTwo])
  const DatasetOne: Dataset := Dataset([LayerOne], None, EmptyObject)
  const DatasetTwo: Dataset := Dataset([LayerTwo], None, EmptyObject)
  const BothFeatures: Value := Arr([FeatureOne, FeatureTwo])
  const KeepSeparate: Value := Obj([("merge_layers", Bool(false))])

  /** Both example features are valid and import, each to a one-feature
      layer of its own. */
  lemma ExampleInputsImport()
    ensures FirstInvalid(BothFeatures.items) == None
    ensures ImportAll(RecordEnv, BothFeatures.items) == Ok([DatasetOne, DatasetTwo])
  {
    var items := BothFeatures.items;
    assert Get(FeatureOne, "type") == ValidTypes[1];
    assert Get(FeatureTwo, "type") == ValidTypes[1];
    assert GeojsonToDataset(RecordEnv, items[0], EmptyObject) == Ok(DatasetOne);
    assert GeojsonToDataset(RecordEnv, items[1], EmptyObject) == Ok(DatasetTwo);
    var r := ImportAll(RecordEnv, items);
    assert r.Ok? && |r.value| == 2 && r.value[0] == DatasetOne && r.value[1] == DatasetTwo;
    assert r.value == [DatasetOne, DatasetTwo];
  }

  lemma ExampleLayers(o: Value)
    ensures Flatten([DatasetOne, DatasetTwo]) == [LayerOne, LayerTwo]
    ensures AllRecords([LayerOne, LayerTwo]) == [FeatureOne, FeatureTwo]
    ensures ExportEach(RecordEnv, [DatasetOne, DatasetTwo], o) == [FeatureOne, FeatureTwo]
  {
    assert [DatasetOne, DatasetTwo][1..] == [DatasetTwo] && [DatasetTwo][1..] == [];
    assert [LayerOne, LayerTwo][1..] == [LayerTwo] && [LayerTwo][1..] == [];
    assert Flatten([DatasetTwo]) == [LayerTwo];
    assert AllRecords([LayerTwo]) == [FeatureTwo];
    assert ExportLayers(RecordEnv, DatasetOne.layers, DatasetOne, o) == [FeatureOne] by {
      assert DatasetOne.layers[1..] == [];
    }
    assert ExportLayers(RecordEnv, DatasetTwo.layers, DatasetTwo, o) == [FeatureTwo] by {
      assert DatasetTwo.layers[1..] == [];
    }
    assert ExportEach(RecordEnv, [DatasetTwo], o) == [FeatureTwo];
  }

  /** merge([f1, f2], {merge_layers: false}) as written yields only f1. */
  lemma MergeDropsSecondInputExample()
    ensures MergeResult(RecordEnv, BothFeatures, KeepSeparate) == Ok(FeatureCollection([FeatureOne]))
  {
    ExampleInputsImport();
    ExampleLayers(KeepSeparate);
    assert Get(KeepSeparate, "merge_layers") == Bool(false);
  }

  /** Corrected, the same call yields both features, in input order. */
  lemma CorrectedMergeKeepsSecondInputExample()
    ensures MergeCorrected(RecordEnv, BothFeatures, KeepSeparate) == Ok(FeatureCollection([FeatureOne, FeatureTwo]))
  {
    ExampleInputsImport();
    ExampleLayers(KeepSeparate);
    assert Get(KeepSeparate, "merge_layers") == Bool(false);
    assert MergeResult(RecordEnv, BothFeatures, KeepSeparate).Ok?;
  }

  /** mergeLayers([f1, f2], {merge_layers: false}) as written yields only f1,
      unmerged. */
  lemma MergeLayersIgnoredExample()
    ensures MergeLayersResult(RecordEnv, BothFeatures, KeepSeparate) == Ok(FeatureCollection([FeatureOne]))
  {
    ExampleInputsImport();
    var o := MergeLayersOptions(KeepSeparate);
    ExampleLayers(o);
    MergeLayersFlagNotRead(KeepSeparate);
    assert Get(o, "merge_layers") == Bool(false);
  }

  /** Corrected, the same call merges both features into one layer. */
  lemma CorrectedMergeLayersExample()
    ensures MergeLayersCorrected(RecordEnv, BothFeatures, KeepSeparate) == Ok(FeatureCollection([FeatureOne, FeatureTwo]))
  {
    ExampleInputsImport();
    var o := MergeLayersOptionsCorrected(KeepSeparate);
    ExampleLayers(o);
    assert Get(o, "merge_layers") == Bool(true);
  }

  /** The merge call of the API's own tests (no options): both inputs'
      features come out, the first input's first, in one merged layer. */
  lemma MergeDefaultExample()
    ensures MergeResult(RecordEnv, BothFeatures, Undefined) == Ok(FeatureCollection([FeatureOne, FeatureTwo]))
  {
    ExampleInputsImport();
    ExampleLayers(EmptyObject);
  }
}
