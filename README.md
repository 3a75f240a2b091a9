# mapshaper in-memory GeoJSON API — a Dafny model

This project models the orchestration layer of mapshaper's in-memory GeoJSON API:

- `src/api/mapshaper-api-utils.mjs`, which provides:
  - input validation;
  - GeoJSON ⇄ dataset conversion;
  - the mutate-or-replace command dispatch.
- `src/api/mapshaper-memory-api.mjs`, the public entry points. Each one:
  1. validates its GeoJSON argument(s);
  2. normalises its options;
  3. imports;
  4. runs one `cmd` command;
  5. exports the result;

  and fails with a fixed message along the way.

Modules:

- `Outcomes` (outcomes.dfy): `Option` and `Result`.
  - A `stop(msg)` call is `Fail(Stop(msg))`.
  - Reading a property of null or undefined is `Fail(TypeError(..))`.
- `JsValue` (js_value.dfy): the JavaScript values that reach the API (`undefined`, `null`, booleans, numbers, strings, arrays, and objects with ordered keys). It also models the language operations the source relies on:
  - truthiness and `typeof … === 'object'`;
  - default parameters;
  - property reads;
  - `utils.extend`;
  - template strings;
  - `Object.entries`;
  - `Array.prototype.join`.
- `MapData` (map_data.dfy): mapshaper's datasets. A dataset is made of:
  - an arc pool;
  - layers, each holding shapes and records;
  - `info`.

  It also defines arc-index validity (`~i` traverses arc `i` backwards) and the FeatureCollection the API returns.
- `Collaborators` (collaborators.dfy): everything the API calls but does not implement, as function-typed fields of one value `Mapshaper`. This covers:
  - `importGeoJSON` and `exportLayerAsGeoJSON`;
  - every `cmd.*` command;
  - number formatting.

  Every API function takes this value as a parameter, so each property holds for every possible behaviour of the collaborators. A command that edits its layer or dataset in place is modelled as returning the new state of what it was handed.
- `ApiUtils` (api_utils.dfy): the four helpers of mapshaper-api-utils.mjs.
- `MemoryApi` (memory_api.dfy): every entry point. `merge` is a method whose loops (the validation `forEach` and the `push` loop) are proved against specification functions; `mergeLayers` is a method that calls it.
- `MergeFindings` (merge_findings.dfy): two defects in `merge`/`mergeLayers`. Each is shown on the code as written, then corrected, with the intended property proved about the correction. A concrete example collaborator set (`RecordEnv`) exhibits both.

`MemoryApi.MergeCanBreakTopology` shows that `merge` can break topology: it puts every input's layers over the first input's arc pool, as the source's own comment concedes ("assuming compatible projections"). Two inputs that are each consistent can merge into a dataset whose arc indices point outside that pool. `MemoryApi.MergeReusesFirstPool` states exactly when the result is consistent.

## Model

| member | source | states |
|---|---|---|
| ApiUtils.ValidateGeojson | src/api/mapshaper-api-utils.mjs:68-86 | anything accepted is an object whose `type` is a string |
| ApiUtils.ValidateGeojsonExactlyNineTypes | src/api/mapshaper-api-utils.mjs:69-85 | accepted exactly when the value is an object whose `type` is one of the nine GeoJSON type names; null, undefined, strings, numbers, booleans and arrays are refused |
| ApiUtils.OutputIsValidInput | src/api/mapshaper-api-utils.mjs:31-34 | every FeatureCollection the API returns is itself accepted as input |
| ApiUtils.GeojsonToDataset | src/api/mapshaper-api-utils.mjs:6-19 | a falsy input fails with "Invalid input: GeoJSON object is required"; no dataset or zero layers fails with "Failed to convert GeoJSON to dataset"; success exactly otherwise, returning the imported dataset, which has at least one layer |
| ApiUtils.DatasetToGeojson | src/api/mapshaper-api-utils.mjs:22-35 | fails, with "Invalid dataset: no layers found", exactly on a dataset without layers; otherwise the features are the export of `layers[0]` |
| ApiUtils.LaterLayersNeverExported | src/api/mapshaper-api-utils.mjs:29 | for an exporter that reads the dataset only for its arcs and info (`ExportIsLayerLocal`), datasets that agree on the first layer, arcs and info give the same output, so later layers never reach it |
| ApiUtils.PoolAfter | src/api/mapshaper-api-utils.mjs:48 | the dataset holds a pool after the command exactly when it held one before, and then it is the pool in the state the command left it |
| ApiUtils.EditedDataset | src/api/mapshaper-api-utils.mjs:51-54 | after an in-place command, the first layer is the command's edit; the later layers and info are unchanged; the arcs are the pool as the command left it (`PoolAfter`) |
| ApiUtils.ReplacementDataset | src/api/mapshaper-api-utils.mjs:57-61 | a returned layer is the only layer, over the pool as the command left it, with `info \|\| {}` (`InfoOrEmpty`) |
| ApiUtils.RunCommandOnGeojson | src/api/mapshaper-api-utils.mjs:43-65 | import failures propagate; otherwise the command runs on `layers[0]`, the arcs and the same opts, and the result is the export of the edited dataset (nothing returned) or of the replacement dataset (a layer returned) |
| ApiUtils.CommandSeenOnlyOnFirstLayer | src/api/mapshaper-api-utils.mjs:48 | two commands that agree on `(layers[0], arcs, opts)` give the same result |
| ApiUtils.ReplacementKeepsTopology | src/api/mapshaper-api-utils.mjs:57-61 | a replacement layer valid in the pool gives a consistent dataset |
| MapData.AsGeoJson | src/api/mapshaper-api-utils.mjs:31-34 | the returned object has `type: 'FeatureCollection'` and the features |
| MapData.InfoOrEmpty | src/api/mapshaper-api-utils.mjs:60 | `info \|\| {}` is truthy, and is `info` itself when that is truthy |
| JsValue.ReadProp | src/api/mapshaper-memory-api.mjs:110 | reading a property fails (TypeError) exactly on null and undefined, and otherwise reads the property |
| JsValue.ExtendWithKeepsOther | src/api/mapshaper-memory-api.mjs:61 | `utils.extend({}, base, {key: val})` leaves every other key of `base` unchanged |
| JsValue.ExtendWithOverrides | src/api/mapshaper-memory-api.mjs:61 | `utils.extend({}, base, {key: val})` reads `val` at `key` and `base`'s value at every other key; it keeps key order (a new key goes last, see `JsValue.Assign` under Left out) and distinct keys |
| JsValue.JoinPlacesPart | src/api/mapshaper-memory-api.mjs:206 | each part of a joined string sits at its offset |
| JsValue.JoinEnds | src/api/mapshaper-memory-api.mjs:206 | the joined string ends with the last part, so no separator trails it |
| JsValue.JoinPlacesSeparator | src/api/mapshaper-memory-api.mjs:206 | consecutive parts are separated by exactly the separator |
| JsValue.DecimalStringInjective | src/api/mapshaper-memory-api.mjs:128 | distinct indices render to distinct decimal strings |
| MemoryApi.InvalidAtIndexNamesIndex | src/api/mapshaper-memory-api.mjs:126-130 | the message "Invalid GeoJSON at index i" determines `i` |
| MemoryApi.DatasetOver | src/api/mapshaper-memory-api.mjs:38-42 | `{layers, arcs, info \|\| {}}` keeps the given layers and the base's arcs, and its info is the base's when truthy and `{}` otherwise (`InfoOrEmpty`) |
| MemoryApi.WithFirstLayer | src/api/mapshaper-memory-api.mjs:258-260 | join's in-place edit of `layers[0]` changes nothing else in the exported target dataset |
| MemoryApi.RunUniform | src/api/mapshaper-memory-api.mjs:14-20 | dissolve and the 21 other wrappers (clean 221, union 232, explode 266, points 277, lines 288, polygons 299, mosaic 310, sort 321, innerlines 455, affine 490, proj 501, inlay 512, filterIslands 523, renameFields 534, filterFields 545, drop 556, uniq 567, dots 601, checkGeometry 664, filterSlivers 675, snap 686): an invalid input gives "Invalid GeoJSON input", and anything else goes to runCommandOnGeojson with the caller's options |
| MemoryApi.Dissolve2 | src/api/mapshaper-memory-api.mjs:26-46 | validation, then import failures propagate, then the command's layers are exported over the arcs and info the command left |
| MemoryApi.BufferOptions | src/api/mapshaper-memory-api.mjs:61 | the command's options carry the positional distance |
| MemoryApi.BufferDistanceOverrides | src/api/mapshaper-memory-api.mjs:61 | the positional distance overrides `options.distance`; every other option and the key order are kept |
| MemoryApi.Buffer | src/api/mapshaper-memory-api.mjs:52-63 | invalid input gives "Invalid GeoJSON input", and a null or undefined distance gives "Buffer distance is required"; otherwise the command runs with the overridden options |
| MemoryApi.BufferAcceptsFalsyDistance | src/api/mapshaper-memory-api.mjs:57-59 | a distance of 0 is not refused |
| MemoryApi.SimplifyOptions | src/api/mapshaper-memory-api.mjs:109-112 | fails exactly on null/undefined options; with a truthy percentage, interval or resolution the options pass unchanged; otherwise `percentage` becomes 0.1 |
| MemoryApi.SimplifyDefaultKeepsOtherOptions | src/api/mapshaper-memory-api.mjs:111 | adding the default percentage keeps every other option |
| MemoryApi.SimplifyOptionsIdempotent | src/api/mapshaper-memory-api.mjs:110-112 | normalising twice equals normalising once |
| MemoryApi.Simplify | src/api/mapshaper-memory-api.mjs:104-115 | validation comes first, and null options give a TypeError; otherwise the command runs with the normalised options |
| MemoryApi.FilterOptions | src/api/mapshaper-memory-api.mjs:166-173 | a string argument becomes `{expression: s}`; anything else is used as is |
| MemoryApi.Filter | src/api/mapshaper-memory-api.mjs:161-187 | invalid input gives "Invalid GeoJSON input"; null options give a TypeError; any falsy `expression` (missing, `""`, `0`, `false`, `null`) gives "Filter expression is required" before import; with a truthy expression it succeeds exactly when the import does, an import failure propagating; the output is the imported dataset after the command edited its first layer and pool in place |
| MemoryApi.CalcExpressionInKeyOrder | src/api/mapshaper-memory-api.mjs:203-206 | for each entry of `Object.entries(expressions)` (an object's properties in key order, an array's index strings and elements), its `field = expr` appears at its offset in the expression, followed by "; " when another entry follows |
| MemoryApi.CalcExpressionEnds | src/api/mapshaper-memory-api.mjs:203-206 | the expression is "" when there are no entries, and otherwise ends with the last entry's `field = expr`, with no trailing "; " |
| MemoryApi.CalcExample | test/memory-api-test.mjs:167-170 | the test's two expressions give "area = width * height; perimeter = 2 * (width + height)" |
| MemoryApi.Calc | src/api/mapshaper-memory-api.mjs:193-216 | invalid input gives "Invalid GeoJSON input", and a non-object gives "Expressions object is required"; an import failure propagates; otherwise the built expression is evaluated on `layers[0]` and the dataset as the command left it is exported, succeeding exactly when it still has a layer and otherwise giving "Invalid dataset: no layers found" |
| MemoryApi.Each | src/api/mapshaper-memory-api.mjs:333-352 | invalid input gives "Invalid GeoJSON input", and a falsy expression gives "Expression is required for each function"; the options carry the expression; an import failure propagates; otherwise the dataset as the command left it is exported, succeeding exactly when it still has a layer |
| MemoryApi.ExportAlone | src/api/mapshaper-memory-api.mjs:378-386 | a single-layer dataset over the original arcs always exports successfully |
| MemoryApi.Split | src/api/mapshaper-memory-api.mjs:357-389 | an import failure propagates its own error, and after a successful import it never fails; one result layer gives a single collection, and any other count gives one collection per layer, in order (none for zero layers) |
| MemoryApi.SplitSingleMatchesPerLayer | src/api/mapshaper-memory-api.mjs:375-387 | the single-collection case equals the per-layer export of that layer |
| MemoryApi.MergeLayersOfOne | src/api/mapshaper-memory-api.mjs:399-414 | a single input is validated and imported, an import failure propagating its own error, and its layers collapse into the one exported layer |
| MemoryApi.Info | src/api/mapshaper-memory-api.mjs:652-659 | validation, then an import with default options whose failure propagates; it succeeds exactly when that import does, with the command's report on the imported dataset |
| MemoryApi.ImportPair | src/api/mapshaper-memory-api.mjs:79-80 | the target is imported before the second input, both with default options; it succeeds exactly when both imports do, and otherwise the first failure wins |
| MemoryApi.Clip | src/api/mapshaper-memory-api.mjs:69-99 | target validation ("Invalid target GeoJSON input") comes before clip validation ("Invalid clip GeoJSON input"); import failures propagate; after import it succeeds exactly when clipLayers returns a layer, and otherwise gives "Invalid dataset: no layers found"; the output is the clipped layers over the target's arcs and info |
| MemoryApi.Divide | src/api/mapshaper-memory-api.mjs:421-450 | target validation comes before divider validation; after that it fails only on import, with the first failing import's own error; the output is the divided layer alone over the target's arcs and info |
| MemoryApi.Join | src/api/mapshaper-memory-api.mjs:244-261 | join, and fuzzyJoin at 579-596: target validation ("Invalid target GeoJSON input") comes before source validation ("Invalid source GeoJSON input"); after that it fails only on import, with the first failing import's own error; the target dataset is exported after its first layer is joined |
| MemoryApi.JoinSeesOnlySourceFirstLayer | src/api/mapshaper-memory-api.mjs:254-260 | the output depends on the source only through its first layer, never its arcs |
| MemoryApi.Generate | src/api/mapshaper-memory-api.mjs:465-485 | rectangle, and graticule at 611-628 and pointGrid at 632-648: never fails; the output is the command's layer over the arcs and info it left on the empty base dataset |
| MemoryApi.FirstInvalidFrom | src/api/mapshaper-memory-api.mjs:126-130 | the returned index is invalid and every earlier one is valid; none is returned exactly when all are valid |
| MemoryApi.FindFirstInvalid | src/api/mapshaper-memory-api.mjs:126-130 | the validation loop stops at the first invalid element |
| MemoryApi.ImportAll | src/api/mapshaper-memory-api.mjs:133 | succeeds exactly when every input imports, giving one dataset per input, in order; otherwise it fails with the error of the first input that does not import |
| MemoryApi.FlattenConcat | src/api/mapshaper-memory-api.mjs:136-139 | concatenating layers distributes over splitting the input list |
| MemoryApi.FlattenInInputOrder | src/api/mapshaper-memory-api.mjs:136-139 | input `i`'s layers sit intact between those of earlier and later inputs |
| MemoryApi.FlattenMembers | src/api/mapshaper-memory-api.mjs:136-139 | a layer is merged exactly when some input holds it |
| MemoryApi.ConcatLayers | src/api/mapshaper-memory-api.mjs:136-139 | the push loop builds exactly the ordered concatenation |
| MemoryApi.MergedDataset | src/api/mapshaper-memory-api.mjs:142-152 | arcs come from the first input and info is the first input's `info \|\| {}`; the layers are all layers, or the single merged one unless `merge_layers` is exactly `false` |
| MemoryApi.MergeResult | src/api/mapshaper-memory-api.mjs:120-155 | non-arrays and empty arrays are refused; the first invalid index is named; an import failure propagates; after a successful import it succeeds exactly when the options are not null (reading `options.merge_layers` of null is a TypeError); the output is the export of the merged dataset |
| MemoryApi.Merge | src/api/mapshaper-memory-api.mjs:120-155 | the imperative merge computes exactly `MergeResult` |
| MemoryApi.MergeCollapsesUnlessFalse | src/api/mapshaper-memory-api.mjs:149-152 | without `merge_layers: false` (in particular with the option absent), the output is the one layer merged from all inputs' layers |
| MemoryApi.MergeReusesFirstPool | src/api/mapshaper-memory-api.mjs:142-146 | with `merge_layers: false`, the merged dataset is consistent exactly when every input layer is valid in the FIRST input's pool |
| MemoryApi.MergeCanBreakTopology | src/api/mapshaper-memory-api.mjs:142-146 | two consistent inputs can merge into an inconsistent dataset |
| MemoryApi.MergeLayersOptions | src/api/mapshaper-memory-api.mjs:397 | the options handed to merge carry `'merge-layers': true` |
| MemoryApi.MergeLayersResult | src/api/mapshaper-memory-api.mjs:394-415 | an array goes to merge with those options; anything else is handled as a single input |
| MemoryApi.MergeLayers | src/api/mapshaper-memory-api.mjs:394-415 | the method computes exactly `MergeLayersResult` |
| MemoryApi.RejectedBeforeImport | src/api/mapshaper-memory-api.mjs:14-17 | every single-input entry point refuses an invalid input with "Invalid GeoJSON input", whatever the importer and commands would do |
| MemoryApi.TargetRejectedBeforeImport | src/api/mapshaper-memory-api.mjs:14-17 | clip, divide, join and fuzzyJoin refuse an invalid target with "Invalid target GeoJSON input", whatever the collaborators would do |
| MemoryApi.ErrorHandlingExamples | test/memory-api-test.mjs:244-270 | `{invalid: 'object'}`, null and a string are "Invalid GeoJSON input"; buffer without a distance and filter without an expression are refused |
| MergeFindings.MergeUnmergedExportsFirstLayerOnly | src/api/mapshaper-memory-api.mjs:149-154 | as written, with `merge_layers: false` the output is only the first input's first layer |
| MergeFindings.MergeDropsSecondInputExample | src/api/mapshaper-memory-api.mjs:149-154 | as written, `merge([f1, f2], {merge_layers: false})` gives only `[f1]` |
| MergeFindings.CorrectedMergeKeepsSecondInputExample | src/api/mapshaper-memory-api.mjs:149-154 | corrected, the same call gives `[f1, f2]` |
| MergeFindings.ExportEachAround | src/api/mapshaper-memory-api.mjs:149-154 | in the corrected unmerged export, dataset `i`'s layers sit between everything the earlier and the later datasets export |
| MergeFindings.ExportEachKeepsCollection | src/api/mapshaper-memory-api.mjs:149-154 | dataset `i`'s own exported collection appears whole in that position |
| MergeFindings.CorrectedUnmergedExportsEach | src/api/mapshaper-memory-api.mjs:149-154 | corrected, an unmerged result is every layer of every input, each exported against its own input |
| MergeFindings.MergeCorrected | src/api/mapshaper-memory-api.mjs:149-154 | the correction fails exactly when merge does and equals it except in the unmerged case |
| MergeFindings.CorrectedMergeKeepsEveryInput | src/api/mapshaper-memory-api.mjs:149-154 | corrected, each input's whole collection appears, in input order |
| MergeFindings.MergeLayersFlagNotRead | src/api/mapshaper-memory-api.mjs:397 | the added `merge-layers` key leaves `merge_layers` as the caller set it |
| MergeFindings.MergeLayersHonoursCallerFalse | src/api/mapshaper-memory-api.mjs:397 | as written, an array with `merge_layers: false` is not merged |
| MergeFindings.MergeLayersIgnoredExample | src/api/mapshaper-memory-api.mjs:397 | as written, `mergeLayers([f1, f2], {merge_layers: false})` gives only `[f1]`, unmerged |
| MergeFindings.CorrectedMergeLayersExample | src/api/mapshaper-memory-api.mjs:394-398 | corrected, the same call merges `[f1, f2]` into one layer |
| MergeFindings.MergeLayersOptionsCorrected | src/api/mapshaper-memory-api.mjs:397 | the corrected options set `merge_layers: true` |
| MergeFindings.MergeLayersCorrected | src/api/mapshaper-memory-api.mjs:394-398 | arrays go to the corrected merge with the corrected options |
| MergeFindings.CorrectedMergeLayersAlwaysCollapses | src/api/mapshaper-memory-api.mjs:397 | corrected, an array's layers always collapse into one, whatever the options |
| MergeFindings.MergeDefaultExample | test/memory-api-test.mjs:233-238 | with the record-concatenating collaborators `RecordEnv`, `merge([f1, f2])` with no options yields both features, first input first |

## Left out

- The `cmd.*` algorithms (dissolve, clip, buffer, simplify, mergeLayers, splitLayer, …) are floating-point geometry in files that are not part of this model. They are uninterpreted collaborator functions.
- The internals of `importGeoJSON` and `exportLayerAsGeoJSON` (arc extraction, ring winding, coordinate resolution) are not part of this model either. They are abstract functions.
- Expression evaluation inside `filterFeatures` and `evaluateEachFeature` (arbitrary JavaScript) is not modelled. Only the expression string and the required-argument checks are.
- The output format of `cmd.printInfo` is not modelled: it is a foreign call.
- `layerToGeojson` (src/api/mapshaper-api-utils.mjs:38-40) is not modelled: it is a direct call to the exporter with no rule of its own, and no entry point uses it.
- index.js (a filesystem check and `process.exit`) is not part of this model, and neither are src/mapshaper-api.mjs (namespace assembly), index.d.ts (types only) or the console demos.
- Exceptions thrown inside collaborators are not modelled: every collaborator is a total function. A command whose result is `undefined` is not modelled either: dissolve2 and clipLayers always return a list, and the generators always return a layer.
- Function values are not modelled as JavaScript values, so `typeof` being `'function'` never arises.
- Numbers are exact reals. NaN is distinct; -0, `Infinity` and `-Infinity` are not representable, and floating-point rounding is not modelled.
- JsValue.Assign: a new key is always appended. JavaScript lists integer-index keys ("0", "1", …) first, in ascending order, before string keys in creation order, so the model's key order differs for those keys. The keys the API assigns ("distance", "percentage", "expression", "merge-layers") are not index keys.
- JsValue.ExtendWith: a string or array given to `utils.extend` as a source contributes no properties in the model; JavaScript would copy its indexed elements.
- Aliasing is not modelled. Values are immutable, so "the caller's options object is not mutated" holds by construction. An in-place edit by a command is modelled as the command returning the new state of everything it is handed: `filterFeatures` returns its layer and pool, `evaluateEachFeature` the whole dataset, `join`/`fuzzyJoin` (handed only two layers and options) the target layer.
- ApiUtils.ValidateGeojson: returns a boolean. The source returns `false` for a non-object, `true` or `false` from the type test when `type` is truthy, and the falsy `type` value itself (`undefined`, `""`, `0`, …) otherwise; every caller only tests it with `if (!…)`, where these agree.

## Findings

| source | as written | input that shows it | evidently intended | confidence | as-written member | corrected member |
|---|---|---|---|---|---|---|
| src/api/mapshaper-memory-api.mjs:149-154 | with `merge_layers: false` the merged dataset keeps every input's layers, but datasetToGeojson exports only `layers[0]`, so every input after the first is silently dropped | `merge([fc1, fc2], {merge_layers: false})` with one feature each gives one feature | every input's features, in input order | high, not executed | MergeFindings.MergeUnmergedExportsFirstLayerOnly, MergeFindings.MergeDropsSecondInputExample | MergeFindings.MergeCorrected, MergeFindings.CorrectedMergeKeepsEveryInput, MergeFindings.CorrectedMergeKeepsSecondInputExample |
| src/api/mapshaper-memory-api.mjs:397 | mergeLayers asks merge to collapse by setting `'merge-layers'`, but merge reads `merge_layers` (line 149), so a caller's `merge_layers: false` stops the collapse | `mergeLayers([fc1, fc2], {merge_layers: false})` gives only fc1's features, unmerged | the layers of all inputs always merged into one | medium, not executed | MergeFindings.MergeLayersHonoursCallerFalse, MergeFindings.MergeLayersIgnoredExample | MergeFindings.MergeLayersCorrected, MergeFindings.CorrectedMergeLayersAlwaysCollapses, MergeFindings.CorrectedMergeLayersExample |
