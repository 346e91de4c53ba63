# Pollination Rhino result handlers — a Dafny model

This project models the part of the Pollination Rhino plug-in that loads the results of a
simulation job into Rhino.

`HandlerHelper.LoadResult` works through these stages:

1. It checks that the job can be loaded. A cloud job must have finished; a local job needs its folder.
2. It builds the set of run assets to fetch: the requested input, the requested output, and the run's
   "model" input when the output is linked and has a non-null handler list, even an empty one
   (HandlerHelper.cs:57). Null entries are dropped, and so are duplicates, keeping the first occurrence.
3. It downloads or loads those assets.
4. It preloads them (`PreloadLinkedOutput`). Each asset becomes a duplicate.
   - A linked output is preloaded through the handler checker, unless its handler list is null or holds
     exactly one handler. An empty, non-null list is still preloaded (HandlerHelper.cs:166).
   - An input whose path ends in ".hbjson", ignoring case, is parsed as a Honeybee model.
5. It dispatches the output:
   - with no handler, it opens the output's path;
   - otherwise it calls the routine named by the last handler, found by reflection on `RhinoHandlers`.
     The routine gets the output alone when that is the only handler, and every preloaded asset
     otherwise. A name that does not resolve does nothing.
   - An exception thrown by one of the two exporters comes out of the call and ends the load: "Loaded" is not
     reported and the input is not surfaced. `LoadMeshBasedResultsToRhino` is `async void`, so its
     exceptions never reach the caller.
6. It surfaces the requested input: it opens it when it is a path, and otherwise reports
   "name: v1,v2,…".

`RhinoHandlers` holds the routines a handler name can resolve to:

- two export routines:
  - `RhinoHBModelToJSON` writes the current scene's Honeybee model to a temporary ".hbjson" file;
  - `HBModelToJSON` returns a string argument unchanged, writes a model argument to such a file, and
    refuses anything else;
- `LoadMeshBasedResultsToRhino`, which pairs the model's sensor grids with the result series by
  position and merges them into one analytical mesh. The mesh goes on layer "RESULT-" followed by the
  first five characters of the run id.

The model is split into these modules:

| file | module | contents |
|---|---|---|
| `wrappers.dfy` | `Wrappers` | `Option`, `Result` |
| `sequences.dfy` | `Sequences` | `Present` (dropping nulls), `Distinct` (first-occurrence order), `FirstIndex`, `Zip`, `Flatten` and their lemmas |
| `text.dfy` | `Text` | `Split`/`Join` with both round trips, the last '/' segment, ASCII `ToLower`, `EndsWith` |
| `assets.dfy` | `Assets` | run assets, preloaded values, the routines, the exceptions, and the observable events with their projections (`Fetches`, `Opens`, `Invokes`) |
| `handler_helper.dfy` | `HandlerHelper` | `LoadResult` and its stages; `PreloadLinkedOutput` as a loop |
| `rhino_handlers.dfy` | `RhinoHandlers` | the export routines; the grid/result merge loop; the run id; `LoadMeshBasedResultsToRhino` |

How the model represents the source:

- An exception becomes an `Error` value.
- A call to code outside the core is a field of `HandlerHelper.Collaborators`: the job service, the
  file system, the download and local-load routines, the handler checker, the JSON parser, the current
  scene model, and the temporary file names.
- The reflection lookup on `RhinoHandlers` is the fixed map `Assets.RhinoHandlerRoutines` from method
  names to routines. What a call does to its caller is given by `HandlerHelper.RoutineOutcome`.
- What `LoadResult` does that an observer can see is recorded as a trace of events: messages, the fetch
  request, opened paths, and invoked routines.

## Model

| member | source | states |
|---|---|---|
| HandlerHelper.LoadResult | src/Pollination.RhinoHandlers/HandlerHelper.cs:14-134 | The trace starts with `LoadingMessages`. Each of these ends in its exception, with the trace being exactly those messages (nothing fetched, opened or invoked): an unfinished cloud job (finished time not after started time), a missing local folder, and a needed but absent "model" input among the run inputs. Otherwise exactly one fetch happens, of `BuildAssetSet`'s list. After it, the routines invoked are exactly those `DispatchOutput` calls through the `RhinoHandlers` lookup. An exception of that call is the outcome's error, and then nothing further is opened. Otherwise the paths opened are the dispatch's, followed by those of `SurfaceInput` for the requested input, and a failure while surfacing the input is the outcome's error. The whole trace is then the progress messages, the fetch, the "Pre-processing." message, the dispatch's events (its "Loaded" included) and, if the input was surfaced, its "Opened: …" or "name: v1,v2" message (`LoadedAfterFetch`). |
| HandlerHelper.LoadFetched | src/Pollination.RhinoHandlers/HandlerHelper.cs:66-131 | The messages so far are kept as the head of the trace. The request is fetched exactly once. The rest of the trace and the error are as `LoadedAfterFetch` states for that request. |
| HandlerHelper.LoadingMessages | src/Pollination.RhinoHandlers/HandlerHelper.cs:22-39 | The progress messages before the fetch: "Loading." first, then "Loading.." for a cloud job, and "Loading..." once that job is finished. They are messages only, at most three. |
| HandlerHelper.IsJobFinished | src/Pollination.RhinoHandlers/HandlerHelper.cs:202-209 | A cloud job is finished exactly when its finish time is after its start time. This predicate has no contract of its own: `LoadResult`'s ensures say that an unfinished cloud job ends in `JobNotFinished` with its status, before anything is fetched. |
| HandlerHelper.IsReady | src/Pollination.RhinoHandlers/HandlerHelper.cs:27-49 | A cloud package is ready when its job is finished, and a local one when its folder exists. This predicate has no contract of its own: `LoadResult`'s ensures say that a package that is not ready fetches nothing and ends in `JobNotFinished` or `FolderNotFound`. |
| HandlerHelper.NeedsModel | src/Pollination.RhinoHandlers/HandlerHelper.cs:54-57 | The output is present, has a non-null (possibly empty) handler list and is linked. This predicate has no contract of its own: `AssetSetFailsIffModelMissing` and `AssetSetOfLinkedOutput` use it as the condition for fetching the "model" input. |
| HandlerHelper.RequestedAssets | src/Pollination.RhinoHandlers/HandlerHelper.cs:51-63 | The list before filtering: input, output, and the run's first "model" input when `NeedsModel` holds. This function has no contract of its own: `AssetSetKeepsRequestOrder` and `AssetSetContents` relate the fetched list to it. |
| HandlerHelper.BuildAssetSet | src/Pollination.RhinoHandlers/HandlerHelper.cs:51-66 | `NoModelInput` when the model is needed and missing, otherwise the requested assets with nulls and duplicates dropped. This function has no contract of its own. `AssetSetFailsIffModelMissing` states when it fails and with what error. `AssetSetContents`, `AssetSetHoldsRequested`, `AssetSetHoldsOnlyRequested` and `AssetSetKeepsRequestOrder` state what a success holds and in which order. `AssetSetOfLinkedOutput` and `AssetSetOfUnlinkedOutput` give it for the two kinds of output. |
| HandlerHelper.CollectAssets | src/Pollination.RhinoHandlers/HandlerHelper.cs:51-66 | The list built step by step, adding the "model" input and then dropping nulls and duplicates, is `BuildAssetSet`'s result, its `NoModelInput` failure included. |
| HandlerHelper.AssetSetFailsIffModelMissing | src/Pollination.RhinoHandlers/HandlerHelper.cs:51-63 | The asset set fails exactly when the output is linked, has a handler list, and no run input asset is named "model". The failure is `NoModelInput`. |
| HandlerHelper.AssetSetContents | src/Pollination.RhinoHandlers/HandlerHelper.cs:51-66 | The fetched list has no duplicates and holds every non-null requested asset: input, output, and the model when it is needed. Every member is one of those. |
| HandlerHelper.AssetSetHoldsRequested | src/Pollination.RhinoHandlers/HandlerHelper.cs:51-66 | Every non-null requested asset is fetched: input, output, and the model when it is needed. |
| HandlerHelper.AssetSetHoldsOnlyRequested | src/Pollination.RhinoHandlers/HandlerHelper.cs:51-66 | Every fetched asset is the input, the output, or the needed model. |
| HandlerHelper.AssetSetKeepsRequestOrder | src/Pollination.RhinoHandlers/HandlerHelper.cs:51-66 | Any two members of the fetched list appear in the request list [input, output, model], and the one fetched first occurs first there. |
| HandlerHelper.AssetSetOfLinkedOutput | src/Pollination.RhinoHandlers/HandlerHelper.cs:54-66 | A linked output with any non-null handler list, even an empty one, brings the model: three different assets give exactly [input, output, model]. An input that is itself the model is fetched once. |
| HandlerHelper.AssetSetOfUnlinkedOutput | src/Pollination.RhinoHandlers/HandlerHelper.cs:54-66 | An output that is not linked never brings the model; the list holds only the input and the output. |
| HandlerHelper.PresentOfThree | src/Pollination.RhinoHandlers/HandlerHelper.cs:66 | Dropping nulls from three present assets keeps all three, in order. |
| HandlerHelper.PreloadLinkedOutput | src/Pollination.RhinoHandlers/HandlerHelper.cs:156-199 | The loop returns exactly one entry per fetched asset, in the same order. Entry i is `PreloadOne` of asset i. |
| HandlerHelper.NeedsCheckerPreload | src/Pollination.RhinoHandlers/HandlerHelper.cs:166 | An output goes through the handler checker when it is linked and its handler list is non-null and not of length one. This predicate has no contract of its own: `OutputPreloadRule` states the preload it selects. |
| HandlerHelper.PreloadOne | src/Pollination.RhinoHandlers/HandlerHelper.cs:162-194 | The duplicate of one fetched asset. This function has no contract of its own: `PreloadOnlyFillsPreloaded`, `OutputPreloadRule` and `InputPreloadRule` state that only the preloaded value changes, and when and to what. |
| HandlerHelper.PreloadOnlyFillsPreloaded | src/Pollination.RhinoHandlers/HandlerHelper.cs:162-194 | A preloaded entry is a duplicate of its asset: only its preloaded value can differ. |
| HandlerHelper.OutputPreloadRule | src/Pollination.RhinoHandlers/HandlerHelper.cs:163-175 | An output stays unchanged iff it is unlinked, has a null handler list, or has exactly one handler. Otherwise its preloaded value is the handler checker's result for that output. |
| HandlerHelper.InputPreloadRule | src/Pollination.RhinoHandlers/HandlerHelper.cs:177-186 | An input whose lower-cased path ends with ".hbjson" is preloaded with the model parsed from that file. Any other input, including one with a null path, is unchanged. |
| HandlerHelper.ModelFileExamples | src/Pollination.RhinoHandlers/HandlerHelper.cs:182 | The extension test ignores case, needs the whole ".hbjson" suffix, and treats a null path as false. |
| HandlerHelper.DispatchOutput | src/Pollination.RhinoHandlers/HandlerHelper.cs:89-113 | Without a preloaded output, nothing happens. With one and no handler (null or empty list), the output's path is opened, nothing is invoked, and nothing fails. With handlers, nothing is opened and only the last handler's routine can be invoked. That routine gets `[output]` for a single handler and all preloaded assets otherwise, and the stage's error is that routine's outcome. An unknown name invokes nothing and does not fail. "Loaded" is reported iff the stage did not fail. Nothing is fetched. |
| HandlerHelper.CallHandler | src/Pollination.RhinoHandlers/HandlerHelper.cs:96-106 | Calling a resolved routine invokes exactly that routine with the argument list, opens and fetches nothing, and reports "Loaded" iff the call did not throw. |
| HandlerHelper.RoutineOutcome | src/Pollination.RhinoHandlers/HandlerHelper.cs:99-104 | Through reflection, `LoadMeshBasedResultsToRhino` (an `async void`) never fails its caller. `HBModelToJSON`, handed the argument array, always fails with `NotAHoneybeeModel`. `RhinoHBModelToJSON` fails iff there is no current model or the file was not saved, and with no current model the failure is `NullModel`. |
| HandlerHelper.LastHandlerWins | src/Pollination.RhinoHandlers/HandlerHelper.cs:95-104 | With handlers A, B, C, only C is invoked, it gets every preloaded asset, and the outcome is C's. |
| HandlerHelper.ModelExportHandlerFails | src/Pollination.RhinoHandlers/HandlerHelper.cs:99-106 | A single "HBModelToJSON" handler invokes `HBModelToJSON` with the output and always ends the load with the wrapped `NotAHoneybeeModel`; "Loaded" is never reported. |
| HandlerHelper.MeshResultHandlerNeverFails | src/Pollination.RhinoHandlers/HandlerHelper.cs:99-106 | A last handler "LoadMeshBasedResultsToRhino" invokes that routine with `[output]` or every preloaded asset, never fails the load, and "Loaded" is reported. |
| HandlerHelper.OpenInput | src/Pollination.RhinoHandlers/HandlerHelper.cs:119-124 | Opening a path input opens exactly its path, and invokes and fetches nothing. |
| HandlerHelper.ReportValues | src/Pollination.RhinoHandlers/HandlerHelper.cs:125-129 | A value input produces one message, "name: " followed by the comma-joined values. It opens, invokes and fetches nothing. |
| HandlerHelper.SurfaceInput | src/Pollination.RhinoHandlers/HandlerHelper.cs:116-131 | A requested input missing from the preloaded assets is an exception. A path input opens its path. A value input with no value list is an exception; otherwise it reports "name: v1,v2". No routine is invoked. |
| HandlerHelper.ValueMessageRecoversValues | src/Pollination.RhinoHandlers/HandlerHelper.cs:127-128 | Splitting what follows "name: " on ',' gives the values back, when there is at least one and none holds a comma. |
| HandlerHelper.LoadToRhino | src/Pollination.RhinoHandlers/HandlerHelper.cs:89-131 | The load stage's invoked routines are the dispatch's. When the dispatch throws, when no input was requested, or when surfacing the input fails, the stage's events are exactly the dispatch's. The error is then the dispatch's exception, none, or the input's failure, in that order. Otherwise the events are the dispatch's followed by the surfaced input's, so its "name: v1,v2" report or its opening, and there is no error. It fetches nothing. |
| HandlerHelper.EffectsAroundFetch | src/Pollination.RhinoHandlers/HandlerHelper.cs:22-86 | In messages, then the fetch, then the load stage, the fetch is the only one, and every open and invoke comes from the load stage. |
| Assets.FirstWhere | src/Pollination.RhinoHandlers/HandlerHelper.cs:90-118 | `FirstOrDefault(p)` is null iff no element satisfies p. Otherwise it is the element at the first index that does. |
| Assets.IsModelFile | src/Pollination.RhinoHandlers/HandlerHelper.cs:182 | A path is a model file when its lower-cased text ends in ".hbjson", and a null path never is. This predicate has no contract of its own: `ModelFileExamples` and `TempModelPathIsModelFile` state its behaviour. |
| Assets.ReportsHaveNoEffects | src/Pollination.RhinoHandlers/HandlerHelper.cs:22-39 | Progress messages open, invoke and fetch nothing. |
| Assets.EffectsOfSequence | src/Pollination.RhinoHandlers/HandlerHelper.cs:85-131 | Opens, invokes and fetches of consecutive stages are concatenated in order. |
| Sequences.Distinct | src/Pollination.RhinoHandlers/HandlerHelper.cs:66 | The result has no duplicates, holds every element of the input and nothing else, and is no longer than the input. |
| Sequences.DistinctKeepsFirstOccurrenceOrder | src/Pollination.RhinoHandlers/HandlerHelper.cs:66 | `Distinct` orders elements by their first occurrence in the input. |
| Sequences.DistinctOfThree | src/Pollination.RhinoHandlers/HandlerHelper.cs:66 | Three different elements are kept as they are; a repeat of the first is dropped. |
| Sequences.Present | src/Pollination.RhinoHandlers/HandlerHelper.cs:66 | Dropping the nulls never lengthens the list. `PresentOfConcat`, `PresentOfOne`, `PresentMembers` and `PresentKeepsOrder` state that exactly the non-null entries are kept, in order. |
| Sequences.PresentOfConcat | src/Pollination.RhinoHandlers/HandlerHelper.cs:66 | `Where(_ => _ != null)` works entry by entry: it distributes over concatenation, so it keeps order and multiplicity. |
| Sequences.PresentOfOne | src/Pollination.RhinoHandlers/HandlerHelper.cs:66 | A single entry is kept exactly when it is not null. |
| Sequences.PresentMembers | src/Pollination.RhinoHandlers/HandlerHelper.cs:66 | Exactly the non-null entries are kept. |
| Sequences.PresentKeepsOrder | src/Pollination.RhinoHandlers/HandlerHelper.cs:66 | Of two kept values, the one found first in the result is found first in the original list. |
| Sequences.Zip | src/Pollination.RhinoHandlers/RhinoHandlers.cs:79 | `Zip` has as many pairs as the shorter list, and pair i is (grid i, series i). |
| Sequences.FlattenPartAt | src/Pollination.RhinoHandlers/RhinoHandlers.cs:84-93 | The concatenation places part i right after all parts before it. |
| Text.JoinSplit | src/Pollination.RhinoHandlers/RhinoHandlers.cs:96 | Joining the pieces of a `Split` with the separator gives the string back. |
| Text.Split | src/Pollination.RhinoHandlers/RhinoHandlers.cs:96 | There is always at least one piece. No piece holds the separator, and none is longer than the string. `JoinSplit` and `SplitJoin` give the round trips with `Join`. |
| Text.LastSegment | src/Pollination.RhinoHandlers/RhinoHandlers.cs:96 | The last segment holds no '/' and is no longer than the string. `LastSegmentFollowsLastSlash` states that it is exactly what follows the last '/'. |
| Text.SplitJoin | src/Pollination.RhinoHandlers/HandlerHelper.cs:127 | Splitting a join of separator-free parts gives the parts back. |
| Text.LastSegmentFollowsLastSlash | src/Pollination.RhinoHandlers/RhinoHandlers.cs:96 | `Split('/').LastOrDefault()` holds no '/', is a suffix of the string, and directly follows its last '/'. |
| RhinoHandlers.TempModelPathIsModelFile | src/Pollination.RhinoHandlers/RhinoHandlers.cs:56 | Every temporary model path passes the preload pass's ".hbjson" test. |
| RhinoHandlers.TempModelPath | src/Pollination.RhinoHandlers/RhinoHandlers.cs:29 | The temporary directory, a random file name and ".hbjson". This function has no contract of its own: `TempModelPathIsModelFile` states that every such path is recognised as a model file. |
| RhinoHandlers.SaveModel | src/Pollination.RhinoHandlers/RhinoHandlers.cs:56-64 | The export succeeds iff the file exists after writing. It then returns a ".hbjson" path; otherwise it is `SaveFailed` for that path. |
| RhinoHandlers.RhinoHBModelToJSON | src/Pollination.RhinoHandlers/RhinoHandlers.cs:23-38 | A null current model is `NullModel`; otherwise the model is saved. Any returned path is a ".hbjson" file. |
| RhinoHandlers.HBModelToJSON | src/Pollination.RhinoHandlers/RhinoHandlers.cs:45-65 | Null is `NullModel`. A string is returned unchanged. A model is saved. Anything else is `NotAHoneybeeModel`. A path it creates is a ".hbjson" file. |
| RhinoHandlers.DoublesKeepsExactlyNumbers | src/Pollination.RhinoHandlers/RhinoHandlers.cs:88 | `OfType<double>` keeps every number of the list and only numbers. |
| RhinoHandlers.DoublesOfConcat | src/Pollination.RhinoHandlers/RhinoHandlers.cs:88 | The numbers of two lists, one after the other, are those of the first followed by those of the second. |
| RhinoHandlers.Doubles | src/Pollination.RhinoHandlers/RhinoHandlers.cs:88 | `OfType<double>()` never lengthens the list. `DoublesKeepsExactlyNumbers` and `DoublesOfConcat` state that exactly the numbers are kept, in order. |
| RhinoHandlers.MergeStep | src/Pollination.RhinoHandlers/RhinoHandlers.cs:85-93 | One pass of the loop appends pair i's mesh and pair i's numbers. |
| RhinoHandlers.FirstNonList | src/Pollination.RhinoHandlers/RhinoHandlers.cs:85-88 | A series that is not a list, reached after only lists, is the first such series, and not all series are lists. |
| RhinoHandlers.MergeGridResults | src/Pollination.RhinoHandlers/RhinoHandlers.cs:78-93 | The loop fails iff some paired series is not a list, and names the first such pair. On success the mesh is the paired grids' meshes in order, and the numbers are the concatenation of each series' numbers in order. |
| RhinoHandlers.MergedMeshPairsByPosition | src/Pollination.RhinoHandlers/RhinoHandlers.cs:78-91 | The merged mesh has one mesh per pair, as many as the shorter list, and mesh i is grid i's. |
| RhinoHandlers.MergedNumbersOfGrid | src/Pollination.RhinoHandlers/RhinoHandlers.cs:84-93 | The numbers of series i sit in the merged list right after those of the series before it, with no index drift. |
| RhinoHandlers.MergeTruncatesToShorter | src/Pollination.RhinoHandlers/RhinoHandlers.cs:79 | Three grids and two series give two pairs and no exception. |
| RhinoHandlers.RunIdOf | src/Pollination.RhinoHandlers/RhinoHandlers.cs:96-100 | A run id that is produced has exactly five characters. |
| RhinoHandlers.RunIdFromSource | src/Pollination.RhinoHandlers/RhinoHandlers.cs:96-100 | Take a source whose last segment is not empty. The run id exists iff that segment has at least five characters. It is then the five characters that follow the last '/', and it holds no '/'. |
| RhinoHandlers.RunIdFromGuid | src/Pollination.RhinoHandlers/RhinoHandlers.cs:97-100 | A null run source, or one whose last segment is empty, takes the first five characters of the GUID string. |
| RhinoHandlers.RunIdFailsOnlyOnShortSegment | src/Pollination.RhinoHandlers/RhinoHandlers.cs:96-100 | With a 36-character GUID string as fallback, the run id fails iff the run source's last segment is non-empty and shorter than five characters, and the error names that segment. |
| RhinoHandlers.LastSegmentExample | src/Pollination.RhinoHandlers/RhinoHandlers.cs:96 | The last segment of "proj/runs/AB12345" is "AB12345". |
| RhinoHandlers.RunIdExample | src/Pollination.RhinoHandlers/RhinoHandlers.cs:96-100 | "proj/runs/AB12345" gives the run id "AB123". |
| RhinoHandlers.LayerName | src/Pollination.RhinoHandlers/RhinoHandlers.cs:103 | The layer is "RESULT-" followed by the run id. This function has no contract of its own: `LoadMeshBasedResultsToRhino`'s ensures put the merged results on it. |
| RhinoHandlers.PreloadedModel | src/Pollination.RhinoHandlers/RhinoHandlers.cs:70-74 | The model preloaded on the first input asset among the arguments, if that value is a model. This function has no contract of its own: `LoadMeshBasedResultsToRhino`'s ensures make its absence the `PreloadedNotAModel` exception. |
| RhinoHandlers.PreloadedSeries | src/Pollination.RhinoHandlers/RhinoHandlers.cs:71-75 | The list preloaded on the first output asset among the arguments, if that value is a list. This function has no contract of its own: `LoadMeshBasedResultsToRhino`'s ensures make its absence the `PreloadedNotAList` exception. |
| RhinoHandlers.LoadMeshBasedResultsToRhino | src/Pollination.RhinoHandlers/RhinoHandlers.cs:68-105 | The exceptions come in source order: no input asset, no output asset, an input preloaded value that is not a model, and an output preloaded value that is not a list. Once both are preloaded, a series that is not a list gives `SeriesNotAList` of the first such pair, and after that a failing run id gives its own error. The routine succeeds iff none applies; null sensor grids and meshes are not modelled (see Left out). On success the layer holds the merged mesh and numbers of the zipped grids and series, named "RESULT-" plus the run id. The GUID string is required to be 36 characters long, as a fresh GUID's text always is. |

## Left out

- Calls into the Pollination SDK are parameters of `HandlerHelper.Collaborators`: the project and job
  APIs, `RunInfo`, downloading and local loading, and the handler checker's preload. Their own
  behaviour is not part of this model.
- `RhinoHandlerChecker.cs` and the two `Handler.cs` files are not part of this model; the checker's
  result appears only as `checkerPreload`.
- The file system is represented by booleans and functions: `Directory.Exists`, `File.Exists`, file
  reading and writing, and JSON (de)serialisation. A failure inside `Model.FromJson` is not modelled.
- Randomness is given as parameters: the temporary directory, `Path.GetRandomFileName` and `Guid.NewGuid`.
  `Path.Combine` is read as concatenation onto a temporary directory that ends with its separator.
- Rhino document work is left out. Converting grids with `ToRHMesh`, `AnalyticalMeshObject`,
  `AddToRhino` and redrawing appear only as the returned `ResultLayer`.
  `ModelEntityTable.Instance.CurrentModelEntity` appears only as the model it yields; a null entity
  is not modelled.
- Reflection is the fixed map from the three public static method names of `RhinoHandlers` to routines.
  Public static methods inherited from `Object` (`FlattenHierarchy`) are not modelled.
- Concurrency is not modelled. `async`/`await` is treated as sequential execution.
- LoadResult: the effects of an invoked routine are not part of its trace; only the call and its
  arguments are recorded, with the routine's outcome. Only the exceptions of the two exporters reach the
  caller; `LoadMeshBasedResultsToRhino` is `async void`, and its result layer is modelled on its own by
  `RhinoHandlers.LoadMeshBasedResultsToRhino`.
- RoutineOutcome: a thrown exception is recorded as `HandlerFailed` of the routine's own error, which
  stands for the `TargetInvocationException` that reflection wraps around it.
- The message callback is assumed non-null. `reportMessage` defaults to null, and calling it then
  would throw on the first line.
- RhinoHandlers.LoadMeshBasedResultsToRhino: a null `Properties`, `Radiance` or `SensorGrids` on the preloaded model is not modelled. Neither is a null sensor grid or a grid whose `Mesh` is null, which `grid.grid.Mesh.ToRHMesh()` dereferences (RhinoHandlers.cs:89). The model's grids always carry a mesh, so it never raises the `NullReferenceException` these cause, and its "succeeds iff" holds only for non-null models and grids.
- Times are integers on one clock rather than `DateTime` values.
- Input values are given already rendered by `ToString()`.
- A requested input that is not among the preloaded assets makes the code dereference null. The model
  gives that the exception `RequestedInputMissing`, and a value input without a value list
  `InputValueMissing`.
- Text.ToLower: only ASCII letters are lower-cased. Culture-specific casing and non-ASCII letters are
  not modelled, and `EndsWith` is compared character by character.
- Sequences.Distinct: assets are compared as values, whereas `Distinct()` on run assets compares
  references. Two equal but separately built assets are merged here.
