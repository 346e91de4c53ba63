/** `HandlerHelper.LoadResult`: check that the job can be loaded, choose the assets to fetch,
    fetch them, preload them, dispatch the requested output to its handler and surface
    the requested input. */
module HandlerHelper {
  import opened Wrappers
  import opened Sequences
  import opened Text
  import opened Assets
  import RhinoHandlers

  /** `JobResultPackage`: where the results of a job live. */
  datatype JobResultPackage = JobResultPackage(isCloudJob: bool, savedLocalPath: Option<string>)

  /** The status the job-tracking service reports; times are instants on one integer clock. */
  datatype JobStatus = JobStatus(startedAt: int, finishedAt: int, status: string)

  /** Everything `LoadResult` asks of code outside this model. */
  datatype Collaborators = Collaborators(
    job: JobStatus,                                   // JobsApi.GetJob(...).Status for the package's job
    folderExists: bool,                               // Directory.Exists(SavedLocalPath)
    runInputs: seq<Asset>,                            // runInfo.GetInputAssets()
    download: seq<Asset> -> seq<Asset>,               // runInfo.DownloadRunAssetsAsync(..., useCached: true)
    loadLocal: seq<Asset> -> seq<Asset>,              // runInfo.LoadLocalRunAssets(...)
    checkerPreload: Asset -> Option<Value>,           // output.PreloadLinkedOutputWithHandler(output.LocalPath, RhinoHandlerChecker.Instance)
    parseModel: string -> HBModel,                    // Model.FromJson(File.ReadAllText(path))
    currentModel: Option<HBModel>,                    // ModelEntityTable.Instance.CurrentModelEntity.GetHBModel()
    tempDir: string,                                  // Path.GetTempPath()
    randomName: string,                               // Path.GetRandomFileName()
    modelSaved: bool)                                 // File.Exists(temp) after an exporter wrote the model

  /** What one call of `LoadResult` did, and the exception it ended with, if any. */
  datatype LoadOutcome = LoadOutcome(trace: seq<Event>, error: Option<Error>)

  // ---------------------------------------------------------------- readiness

  /** A cloud job has finished when it finished after it started. */
  predicate IsJobFinished(job: JobStatus)
  {
    job.finishedAt > job.startedAt
  }

  /** A cloud package needs a finished job; a local one needs its folder. */
  predicate IsReady(pkg: JobResultPackage, env: Collaborators)
  {
    if pkg.isCloudJob then IsJobFinished(env.job) else env.folderExists
  }

  // ---------------------------------------------------------------- asset set

  /** `outputAsset?.Handlers`. */
  function HandlersOf(output: Option<Asset>): Option<seq<string>>
  {
    if output.Some? && output.value.Output? then output.value.handlers else None
  }

  /** The output is linked and has a handler list (possibly empty): the model input must come along. */
  predicate NeedsModel(output: Option<Asset>)
  {
    output.Some? && output.value.Output? && output.value.handlers.Some? && output.value.isLinked
  }

  /** `GetInputAssets().First(_ => _.Name == "model")` looks among inputs only. */
  predicate IsModelInput(a: Asset)
  {
    a.Input? && a.name == "model"
  }

  /** The list LoadResult builds before filtering: input, output, and the run's first
      "model" input when the output needs it. */
  function RequestedAssets(input: Option<Asset>, output: Option<Asset>, runInputs: seq<Asset>): seq<Option<Asset>>
  {
    [input, output] + if NeedsModel(output) then [FirstWhere(runInputs, IsModelInput)] else []
  }

  /** The assets sent for fetching, or the exception `First` throws when the model input is missing. */
  function BuildAssetSet(input: Option<Asset>, output: Option<Asset>, runInputs: seq<Asset>): Result<seq<Asset>, Error>
  {
    if NeedsModel(output) && FirstWhere(runInputs, IsModelInput).None? then Failure(NoModelInput)
    else Success(Distinct(Present(RequestedAssets(input, output, runInputs))))
  }

  /** Building the asset set fails exactly when a model is needed and the run has none. */
  lemma AssetSetFailsIffModelMissing(input: Option<Asset>, output: Option<Asset>, runInputs: seq<Asset>)
    ensures BuildAssetSet(input, output, runInputs).Failure? <==>
            NeedsModel(output) && forall k :: 0 <= k < |runInputs| ==> !(runInputs[k].Input? && runInputs[k].name == "model")
    ensures BuildAssetSet(input, output, runInputs).Failure? ==>
            BuildAssetSet(input, output, runInputs).error == NoModelInput
  {
  }

  /** The asset set has no duplicates, holds every requested asset that is present, and
      nothing else; the model input is among them iff the output needs it. */
  lemma AssetSetContents(input: Option<Asset>, output: Option<Asset>, runInputs: seq<Asset>)
    requires BuildAssetSet(input, output, runInputs).Success?
    ensures var r := BuildAssetSet(input, output, runInputs).value;
      && NoDup(r)
      && (input.Some? ==> input.value in r)
      && (output.Some? ==> output.value in r)
      && (NeedsModel(output) ==> FirstWhere(runInputs, IsModelInput).value in r)
      && (forall i :: 0 <= i < |r| ==>
            Some(r[i]) == input || Some(r[i]) == output ||
            (NeedsModel(output) && Some(r[i]) == FirstWhere(runInputs, IsModelInput)))
  {
    AssetSetHoldsRequested(input, output, runInputs);
    AssetSetHoldsOnlyRequested(input, output, runInputs);
  }

  /** Every non-null requested asset is fetched. */
  lemma AssetSetHoldsRequested(input: Option<Asset>, output: Option<Asset>, runInputs: seq<Asset>)
    requires BuildAssetSet(input, output, runInputs).Success?
    ensures var r := BuildAssetSet(input, output, runInputs).value;
      && (input.Some? ==> input.value in r)
      && (output.Some? ==> output.value in r)
      && (NeedsModel(output) ==> FirstWhere(runInputs, IsModelInput).value in r)
  {
    var req := RequestedAssets(input, output, runInputs);
    assert req[0] == input && req[1] == output;
    if input.Some? {
      PresentKeeps(req, 0);
    }
    if output.Some? {
      PresentKeeps(req, 1);
    }
    if NeedsModel(output) {
      assert req[2] == FirstWhere(runInputs, IsModelInput);
      PresentKeeps(req, 2);
    }
  }

  /** Nothing but the requested assets is fetched. */
  lemma AssetSetHoldsOnlyRequested(input: Option<Asset>, output: Option<Asset>, runInputs: seq<Asset>)
    requires BuildAssetSet(input, output, runInputs).Success?
    ensures var r := BuildAssetSet(input, output, runInputs).value;
      forall i :: 0 <= i < |r| ==>
        Some(r[i]) == input || Some(r[i]) == output ||
        (NeedsModel(output) && Some(r[i]) == FirstWhere(runInputs, IsModelInput))
  {
    var req := RequestedAssets(input, output, runInputs);
    var p := Present(req);
    var r := Distinct(p);
    var allowed := if NeedsModel(output) then [input, output, FirstWhere(runInputs, IsModelInput)] else [input, output];
    assert req == allowed;
    forall i | 0 <= i < |r|
      ensures Some(r[i]) == input || Some(r[i]) == output ||
              (NeedsModel(output) && Some(r[i]) == FirstWhere(runInputs, IsModelInput))
    {
      assert r[i] in p;
      PresentMember(req, r[i]);
      assert Some(r[i]) in allowed;
    }
  }

  /** The asset set keeps the order of first occurrence in the request: input, then output, then model. */
  lemma AssetSetKeepsRequestOrder(input: Option<Asset>, output: Option<Asset>, runInputs: seq<Asset>, i: nat, j: nat)
    requires BuildAssetSet(input, output, runInputs).Success?
    requires i < j < |BuildAssetSet(input, output, runInputs).value|
    ensures var request := RequestedAssets(input, output, runInputs);
            var r := BuildAssetSet(input, output, runInputs).value;
            Some(r[i]) in request && Some(r[j]) in request &&
            FirstIndex(request, Some(r[i])) < FirstIndex(request, Some(r[j]))
  {
    var request := RequestedAssets(input, output, runInputs);
    var present := Present(request);
    var r := BuildAssetSet(input, output, runInputs).value;
    DistinctKeepsFirstOccurrenceOrder(present, i, j);
    PresentKeepsOrder(request, r[i], r[j]);
  }

  /** Three different assets give exactly [input, output, model]; an input that is the
      model itself is fetched once. Any non-null handler list, even an empty one, brings the model. */
  lemma AssetSetOfLinkedOutput(input: Asset, output: Asset, runInputs: seq<Asset>)
    requires output.Output? && output.isLinked && output.handlers.Some?
    requires FirstWhere(runInputs, IsModelInput).Some?
    ensures var m := FirstWhere(runInputs, IsModelInput).value;
      && (input != output && input != m && output != m ==>
            BuildAssetSet(Some(input), Some(output), runInputs) == Success([input, output, m]))
      && (input == m && input != output ==>
            BuildAssetSet(Some(input), Some(output), runInputs) == Success([input, output]))
  {
    var m := FirstWhere(runInputs, IsModelInput).value;
    var req := RequestedAssets(Some(input), Some(output), runInputs);
    assert req == [Some(input), Some(output), Some(m)];
    PresentOfThree(input, output, m);
    DistinctOfThree(input, output, m);
  }

  lemma PresentOfThree(a: Asset, b: Asset, c: Asset)
    ensures Present([Some(a), Some(b), Some(c)]) == [a, b, c]
  {
    var req := [Some(a), Some(b), Some(c)];
    assert req[1..] == [Some(b), Some(c)];
    assert req[1..][1..] == [Some(c)];
    assert req[1..][1..][1..] == [];
    assert Present(req[1..][1..][1..]) == [];
    assert Present(req[1..][1..]) == [c];
    assert Present(req[1..]) == [b, c];
  }

  /** An output that is not linked never brings the model, whatever its handlers. */
  lemma AssetSetOfUnlinkedOutput(input: Option<Asset>, output: Asset, runInputs: seq<Asset>)
    requires output.Output? && !output.isLinked
    ensures BuildAssetSet(input, Some(output), runInputs).Success?
    ensures forall a :: a in BuildAssetSet(input, Some(output), runInputs).value ==> Some(a) == input || a == output
  {
    var r := BuildAssetSet(input, Some(output), runInputs).value;
    AssetSetContents(input, Some(output), runInputs);
    forall a | a in r ensures Some(a) == input || a == output {
      var i :| 0 <= i < |r| && r[i] == a;
    }
  }

  // ---------------------------------------------------------------- preload

  /** An output is preloaded through the handler checker when it is linked and has a
      handler list whose length is not one. */
  predicate NeedsCheckerPreload(a: Asset)
  {
    a.Output? && a.isLinked && a.handlers.Some? && |a.handlers.value| != 1
  }

  /** The duplicate of one fetched asset, preloaded as the rules require. */
  function PreloadOne(a: Asset, checker: Asset -> Option<Value>, parseModel: string -> HBModel): Asset
  {
    if a.Output? then
      if NeedsCheckerPreload(a) then WithPreloaded(a, checker(a)) else a
    else if IsModelFile(a.localPath) then WithPreloaded(a, Some(Model(parseModel(a.localPath.value))))
    else a
  }

  /** The preloaded list, as a function of the fetched one. */
  function PreloadAll(raw: seq<Asset>, checker: Asset -> Option<Value>, parseModel: string -> HBModel): (r: seq<Asset>)
    ensures |r| == |raw|
  {
    seq(|raw|, i requires 0 <= i < |raw| => PreloadOne(raw[i], checker, parseModel))
  }

  /** The preload pass: one duplicate per fetched asset, in the same order. */
  method PreloadLinkedOutput(rawResults: seq<Asset>, checker: Asset -> Option<Value>, parseModel: string -> HBModel)
    returns (checkedAssets: seq<Asset>)
    ensures |checkedAssets| == |rawResults|
    ensures forall i :: 0 <= i < |rawResults| ==> checkedAssets[i] == PreloadOne(rawResults[i], checker, parseModel)
  {
    checkedAssets := [];
    for i := 0 to |rawResults|
      invariant |checkedAssets| == i
      invariant forall k :: 0 <= k < i ==> checkedAssets[k] == PreloadOne(rawResults[k], checker, parseModel)
    {
      var item := rawResults[i];
      var dup := item;
      if dup.Output? {
        var handlers := dup.handlers;
        if !dup.isLinked || handlers.None? || |handlers.value| == 1 {
          checkedAssets := checkedAssets + [dup];
          continue;
        }
        dup := WithPreloaded(dup, checker(dup));
      } else {
        if IsModelFile(item.localPath) {
          dup := WithPreloaded(dup, Some(Model(parseModel(item.localPath.value))));
        }
      }
      checkedAssets := checkedAssets + [dup];
    }
  }

  /** A preloaded asset is a duplicate: only its preloaded value may differ from the original. */
  lemma PreloadOnlyFillsPreloaded(a: Asset, checker: Asset -> Option<Value>, parseModel: string -> HBModel)
    ensures var d := PreloadOne(a, checker, parseModel);
            d == WithPreloaded(a, d.preloaded)
  {
  }

  /** An output is left as it is iff it is not linked, has a null handler list, or has exactly
      one handler; otherwise its preloaded value is what the checker returns for it. */
  lemma OutputPreloadRule(a: Asset, checker: Asset -> Option<Value>, parseModel: string -> HBModel)
    requires a.Output?
    ensures !a.isLinked || a.handlers.None? || |a.handlers.value| == 1 ==> PreloadOne(a, checker, parseModel) == a
    ensures a.isLinked && a.handlers.Some? && |a.handlers.value| != 1 ==>
            PreloadOne(a, checker, parseModel).preloaded == checker(a)
  {
  }

  /** An input is preloaded with its parsed model iff its path, lower-cased, ends with ".hbjson". */
  lemma InputPreloadRule(a: Asset, checker: Asset -> Option<Value>, parseModel: string -> HBModel)
    requires a.Input?
    ensures IsModelFile(a.localPath) ==>
            PreloadOne(a, checker, parseModel).preloaded == Some(Model(parseModel(a.localPath.value)))
    ensures !IsModelFile(a.localPath) ==> PreloadOne(a, checker, parseModel) == a
  {
  }

  /** The extension test ignores case and needs the whole suffix. */
  lemma ModelFileExamples()
    ensures IsModelFile(Some("C:/sim/Model.HBJSON"))
    ensures !IsModelFile(Some("C:/sim/results.json"))
    ensures !IsModelFile(Some("hbjson"))
    ensures !IsModelFile(None)
  {
    var p := "C:/sim/Model.HBJSON";
    assert ToLower(p)[|p| - 7..] == ".hbjson";
    var q := "C:/sim/results.json";
    assert ToLower(q)[|q| - 7] == 't';
  }

  // ---------------------------------------------------------------- dispatch

  /** The handler list holds at least one handler. */
  predicate HasHandlers(handlers: Option<seq<string>>)
  {
    handlers.Some? && |handlers.value| > 0
  }

  /** How a path appears in an interpolated message: null prints as nothing. */
  function PathText(path: Option<string>): string
  {
    if path.Some? then path.value else ""
  }

  /** The argument a routine receives through reflection: an `object[]`, which is neither a
      string nor a Honeybee model. */
  const ArgumentArray: Value := OtherValue(0)

  /** What calling a routine through reflection does to the caller. `LoadMeshBasedResultsToRhino`
      is `async void`, so none of its exceptions reach the caller. The two exporters run to
      completion inside the call, and any exception they throw comes out wrapped. `HBModelToJSON`
      is handed the argument array, which it always refuses; `RhinoHBModelToJSON` ignores its
      argument and exports the current scene model. */
  function RoutineOutcome(env: Collaborators, routine: Routine): (r: Option<Error>)
    ensures routine == LoadMeshBasedResultsToRhinoRoutine ==> r.None?
    ensures routine == HBModelToJSONRoutine ==> r == Some(HandlerFailed(NotAHoneybeeModel))
    ensures routine == RhinoHBModelToJSONRoutine ==> (r.None? <==> env.currentModel.Some? && env.modelSaved)
    ensures routine == RhinoHBModelToJSONRoutine && env.currentModel.None? ==> r == Some(HandlerFailed(NullModel))
  {
    var exported :=
      match routine
      case LoadMeshBasedResultsToRhinoRoutine => Success("")
      case HBModelToJSONRoutine => RhinoHandlers.HBModelToJSON(Some(ArgumentArray), env.tempDir, env.randomName, env.modelSaved)
      case RhinoHBModelToJSONRoutine => RhinoHandlers.RhinoHBModelToJSON(env.currentModel, env.tempDir, env.randomName, env.modelSaved);
    if exported.Failure? then Some(HandlerFailed(exported.error)) else None
  }

  /** The outcome of every routine, for one environment. */
  function RoutineOutcomes(env: Collaborators): Routine -> Option<Error>
  {
    (routine: Routine) => RoutineOutcome(env, routine)
  }

  /** Calling the resolved routine: report, call, then report "Loaded" unless the call threw. */
  function CallHandler(routine: Routine, paramArg: seq<Asset>, failure: Option<Error>): (r: LoadOutcome)
    ensures Fetches(r.trace) == [] && Opens(r.trace) == [] && Invokes(r.trace) == [(routine, paramArg)]
    ensures r.error == failure
    ensures Report("Loaded") in r.trace <==> failure.None?
  {
    var loading := Report("Loading results");
    var call := Invoke(routine, paramArg);
    var loaded := Report("Loaded");
    EffectsOfEvent(loading);
    EffectsOfEvent(call);
    EffectsOfEvent(loaded);
    EffectsOfPair(loading, call);
    EffectsOfEvents(loading, call, loaded);
    if failure.Some? then LoadOutcome([loading, call], failure)
    else LoadOutcome([loading, call, loaded], None)
  }

  /** Loading the output: open its path when there is no handler, otherwise call the last
      handler (resolved by name; an unknown name does nothing) with the output alone when it
      is the only handler and with every preloaded asset otherwise. An exception of the call
      ends the stage before "Loaded" is reported. */
  function DispatchOutput(preloaded: seq<Asset>, handlers: Option<seq<string>>, registry: map<string, Routine>,
                          outcome: Routine -> Option<Error>): (r: LoadOutcome)
    ensures Fetches(r.trace) == []
    ensures FirstWhere(preloaded, IsOutput).None? ==> r == LoadOutcome([], None)
    ensures FirstWhere(preloaded, IsOutput).Some? && !HasHandlers(handlers) ==>
            Opens(r.trace) == [FirstWhere(preloaded, IsOutput).value.localPath] && Invokes(r.trace) == [] &&
            r.error.None?
    ensures HasHandlers(handlers) ==> Opens(r.trace) == []
    ensures HasHandlers(handlers) && handlers.value[|handlers.value| - 1] !in registry ==>
            Invokes(r.trace) == [] && r.error.None?
    ensures FirstWhere(preloaded, IsOutput).Some? && HasHandlers(handlers) &&
            handlers.value[|handlers.value| - 1] in registry ==>
            var routine := registry[handlers.value[|handlers.value| - 1]];
            && Invokes(r.trace) ==
               [(routine, if |handlers.value| == 1 then [FirstWhere(preloaded, IsOutput).value] else preloaded)]
            && r.error == outcome(routine)
    ensures FirstWhere(preloaded, IsOutput).Some? && HasHandlers(handlers) ==>
            (Report("Loaded") in r.trace <==> r.error.None?)
  {
    match FirstWhere(preloaded, IsOutput)
    case None => LoadOutcome([], None)
    case Some(outputToLoad) =>
      if HasHandlers(handlers) then
        var name := handlers.value[|handlers.value| - 1];
        var paramArg := if |handlers.value| == 1 then [outputToLoad] else preloaded;
        var loading := Report("Loading results");
        var loaded := Report("Loaded");
        EffectsOfEvent(loading);
        EffectsOfEvent(loaded);
        if name in registry then CallHandler(registry[name], paramArg, outcome(registry[name]))
        else
          EffectsOfPair(loading, loaded);
          LoadOutcome([loading, loaded], None)
      else
        var open := Open(outputToLoad.localPath);
        var message := Report("Opened: " + PathText(outputToLoad.localPath));
        EffectsOfEvent(open);
        EffectsOfEvent(message);
        EffectsOfPair(open, message);
        LoadOutcome([open, message], None)
  }

  /** Of handlers ["A", "B", "C"] the last one, "C", is called, with all preloaded assets. */
  lemma LastHandlerWins(preloaded: seq<Asset>, registry: map<string, Routine>, outcome: Routine -> Option<Error>)
    requires FirstWhere(preloaded, IsOutput).Some?
    requires "C" in registry
    ensures var r := DispatchOutput(preloaded, Some(["A", "B", "C"]), registry, outcome);
            Invokes(r.trace) == [(registry["C"], preloaded)] && r.error == outcome(registry["C"])
  {
  }

  /** A single "HBModelToJSON" handler always fails the load: the routine is handed the argument
      array instead of a model, and "Loaded" is never reported. */
  lemma ModelExportHandlerFails(preloaded: seq<Asset>, env: Collaborators)
    requires FirstWhere(preloaded, IsOutput).Some?
    ensures var r := DispatchOutput(preloaded, Some(["HBModelToJSON"]), RhinoHandlerRoutines, RoutineOutcomes(env));
            && Invokes(r.trace) == [(HBModelToJSONRoutine, [FirstWhere(preloaded, IsOutput).value])]
            && r.error == Some(HandlerFailed(NotAHoneybeeModel))
            && Report("Loaded") !in r.trace
  {
    assert RoutineOutcomes(env)(HBModelToJSONRoutine) == RoutineOutcome(env, HBModelToJSONRoutine);
  }

  /** A last handler "LoadMeshBasedResultsToRhino" never fails the load, whatever the routine does. */
  lemma MeshResultHandlerNeverFails(preloaded: seq<Asset>, handlers: seq<string>, env: Collaborators)
    requires FirstWhere(preloaded, IsOutput).Some?
    requires |handlers| > 0 && handlers[|handlers| - 1] == "LoadMeshBasedResultsToRhino"
    ensures var r := DispatchOutput(preloaded, Some(handlers), RhinoHandlerRoutines, RoutineOutcomes(env));
            && Invokes(r.trace) ==
               [(LoadMeshBasedResultsToRhinoRoutine,
                 if |handlers| == 1 then [FirstWhere(preloaded, IsOutput).value] else preloaded)]
            && r.error.None? && Report("Loaded") in r.trace
  {
    assert RoutineOutcomes(env)(LoadMeshBasedResultsToRhinoRoutine) ==
           RoutineOutcome(env, LoadMeshBasedResultsToRhinoRoutine);
  }

  /** Selects the input asset with the given name. */
  function InputNamed(name: string): Asset -> bool
  {
    (a: Asset) => a.Input? && a.name == name
  }

  /** `string.Join(",", values)` behind the input's name. */
  function ValueMessage(name: string, values: seq<string>): string
  {
    name + ": " + Join(values, ',')
  }

  /** Opening an input that is a path: the file is opened and the opening reported. */
  function OpenInput(localPath: Option<string>): (r: seq<Event>)
    ensures Opens(r) == [localPath] && Invokes(r) == [] && Fetches(r) == []
  {
    var open := Open(localPath);
    var message := Report("Opened: " + PathText(localPath));
    EffectsOfEvent(open);
    EffectsOfEvent(message);
    EffectsOfPair(open, message);
    [open, message]
  }

  /** Reporting the values of an input that is not a path; nothing is opened. */
  function ReportValues(name: string, values: seq<string>): (r: seq<Event>)
    ensures r == [Report(ValueMessage(name, values))]
    ensures Opens(r) == [] && Invokes(r) == [] && Fetches(r) == []
  {
    EffectsOfEvent(Report(ValueMessage(name, values)));
    [Report(ValueMessage(name, values))]
  }

  /** Surfacing the requested input: open it when it is a path, otherwise report its values;
      a missing input or a missing value list is an exception. */
  function SurfaceInput(preloaded: seq<Asset>, name: string): (r: Result<seq<Event>, Error>)
    ensures FirstWhere(preloaded, InputNamed(name)).None? ==> r == Failure(RequestedInputMissing(name))
    ensures r.Success? ==> Fetches(r.value) == [] && Invokes(r.value) == []
    ensures var i := FirstWhere(preloaded, InputNamed(name));
            i.Some? && i.value.isPath ==> r.Success? && Opens(r.value) == [i.value.localPath]
    ensures var i := FirstWhere(preloaded, InputNamed(name));
            i.Some? && !i.value.isPath ==>
              (i.value.values.None? ==> r == Failure(InputValueMissing(name))) &&
              (i.value.values.Some? ==> r == Success([Report(ValueMessage(name, i.value.values.value))]))
  {
    var found := FirstWhere(preloaded, InputNamed(name));
    if found.None? then Failure(RequestedInputMissing(name))
    else if found.value.isPath then Success(OpenInput(found.value.localPath))
    else if found.value.values.None? then Failure(InputValueMissing(name))
    else Success(ReportValues(name, found.value.values.value))
  }

  /** The reported values can be read back: what follows "name: " splits on ',' into the
      values, when there is at least one and none holds a comma. */
  lemma ValueMessageRecoversValues(name: string, values: seq<string>)
    requires |values| >= 1
    requires forall k :: 0 <= k < |values| ==> ',' !in values[k]
    ensures var m := ValueMessage(name, values);
            |name| + 2 <= |m| && m[..|name| + 2] == name + ": " && Split(m[|name| + 2..], ',') == values
  {
    var m := ValueMessage(name, values);
    assert m[|name| + 2..] == Join(values, ',');
    SplitJoin(values, ',');
  }

  // ---------------------------------------------------------------- the pipeline

  /** The assets the fetch stage returns for a request. */
  function Fetched(pkg: JobResultPackage, env: Collaborators, request: seq<Asset>): seq<Asset>
  {
    if pkg.isCloudJob then env.download(request) else env.loadLocal(request)
  }

  /** The preloaded assets for a request. */
  function Preloaded(pkg: JobResultPackage, env: Collaborators, request: seq<Asset>): seq<Asset>
  {
    PreloadAll(Fetched(pkg, env, request), env.checkerPreload, env.parseModel)
  }

  /** Loading the preloaded assets into the host: dispatch the output, then, unless the
      dispatch threw, surface the requested input, if any. */
  method LoadToRhino(preloaded: seq<Asset>, outputHandlers: Option<seq<string>>, outcome: Routine -> Option<Error>,
                     inputAsset: Option<Asset>)
    returns (events: seq<Event>, error: Option<Error>)
    ensures Fetches(events) == []
    ensures var dispatched := DispatchOutput(preloaded, outputHandlers, RhinoHandlerRoutines, outcome);
      && Invokes(events) == Invokes(dispatched.trace)
      && (dispatched.error.Some? ==> error == dispatched.error && events == dispatched.trace)
      && (dispatched.error.None? && inputAsset.None? ==> error.None? && events == dispatched.trace)
      && (dispatched.error.None? && inputAsset.Some? ==>
            var surfaced := SurfaceInput(preloaded, inputAsset.value.name);
            && (surfaced.Failure? ==> error == Some(surfaced.error) && events == dispatched.trace)
            && (surfaced.Success? ==> error.None? && events == dispatched.trace + surfaced.value
                                      && Opens(events) == Opens(dispatched.trace) + Opens(surfaced.value)))
  {
    var dispatched := DispatchOutput(preloaded, outputHandlers, RhinoHandlerRoutines, outcome);
    events := dispatched.trace;
    error := dispatched.error;
    if error.None? && inputAsset.Some? {
      var surfaced := SurfaceInput(preloaded, inputAsset.value.name);
      if surfaced.Failure? {
        error := Some(surfaced.error);
      } else {
        EffectsOfSequence(events, surfaced.value);
        events := events + surfaced.value;
      }
    }
  }

  /** Messages, then one fetch, then a stage: the fetch is the only one, and opened paths and
      invoked handlers all come from that stage. */
  lemma EffectsAroundFetch(before: seq<Event>, request: seq<Asset>, message: string, after: seq<Event>)
    requires forall i :: 0 <= i < |before| ==> before[i].Report?
    requires Fetches(after) == []
    ensures var t := before + [Fetch(request), Report(message)] + after;
            Fetches(t) == [request] && Opens(t) == Opens(after) && Invokes(t) == Invokes(after)
  {
    var stage := [Fetch(request), Report(message)];
    ReportsHaveNoEffects(before);
    FetchStageEffects(request, message);
    EffectsOfSequence(before, stage);
    EffectsOfSequence(before + stage, after);
  }

  /** The fetch followed by one message: one fetch, nothing opened or invoked. */
  lemma FetchStageEffects(request: seq<Asset>, message: string)
    ensures var stage := [Fetch(request), Report(message)];
            Fetches(stage) == [request] && Opens(stage) == [] && Invokes(stage) == []
  {
    EffectsOfEvent(Fetch(request));
    EffectsOfEvent(Report(message));
    EffectsOfPair(Fetch(request), Report(message));
  }

  /** The load once `request` is fetched after the messages `before`: the routines invoked are
      the dispatch's; an exception of the dispatch is the error and nothing more is opened;
      otherwise the requested input is surfaced, and a failure there is the error. The trace is
      the messages, the fetch and its message, then the events of the dispatch and of the
      surfaced input. */
  ghost predicate LoadedAfterFetch(pkg: JobResultPackage, env: Collaborators, before: seq<Event>, request: seq<Asset>,
                                   inputAsset: Option<Asset>, outputAsset: Option<Asset>, r: LoadOutcome)
  {
    var preloaded := Preloaded(pkg, env, request);
    var dispatched := DispatchOutput(preloaded, HandlersOf(outputAsset), RhinoHandlerRoutines, RoutineOutcomes(env));
    var surfaced := if dispatched.error.None? && inputAsset.Some? then SurfaceInput(preloaded, inputAsset.value.name)
                    else Success([]);
    var stage := dispatched.trace + (if surfaced.Success? then surfaced.value else []);
    && Invokes(r.trace) == Invokes(dispatched.trace)
    && (dispatched.error.Some? ==> r.error == dispatched.error && Opens(r.trace) == Opens(dispatched.trace))
    && (dispatched.error.None? && inputAsset.None? ==> r.error.None? && Opens(r.trace) == Opens(dispatched.trace))
    && (dispatched.error.None? && inputAsset.Some? ==>
          && (surfaced.Failure? ==> r.error == Some(surfaced.error) && Opens(r.trace) == Opens(dispatched.trace))
          && (surfaced.Success? ==> r.error.None? && Opens(r.trace) == Opens(dispatched.trace) + Opens(surfaced.value)))
    && r.trace == before + [Fetch(request), Report("Pre-processing.")] + stage
  }

  /** Fetches `request` after the messages so far, preloads what came back and loads it. */
  method LoadFetched(pkg: JobResultPackage, env: Collaborators, before: seq<Event>, request: seq<Asset>,
                     inputAsset: Option<Asset>, outputAsset: Option<Asset>)
    returns (r: LoadOutcome)
    requires forall i :: 0 <= i < |before| ==> before[i].Report?
    ensures Fetches(r.trace) == [request]
    ensures LoadedAfterFetch(pkg, env, before, request, inputAsset, outputAsset, r)
  {
    var results := if pkg.isCloudJob then env.download(request) else env.loadLocal(request);
    var preloadedResults := PreloadLinkedOutput(results, env.checkerPreload, env.parseModel);
    assert preloadedResults == Preloaded(pkg, env, request);
    var loaded, error := LoadToRhino(preloadedResults, HandlersOf(outputAsset), RoutineOutcomes(env), inputAsset);
    var all := before + [Fetch(request), Report("Pre-processing.")] + loaded;
    EffectsAroundFetch(before, request, "Pre-processing.", loaded);
    r := LoadOutcome(all, error);
  }

  /** The asset list as `LoadResult` builds it: input and output, then the run's "model" input
      when the output needs it, then nulls and duplicates dropped. */
  method CollectAssets(inputAsset: Option<Asset>, outputAsset: Option<Asset>, runInputs: seq<Asset>)
    returns (r: Result<seq<Asset>, Error>)
    ensures r == BuildAssetSet(inputAsset, outputAsset, runInputs)
  {
    var assets: seq<Option<Asset>> := [inputAsset, outputAsset];
    if outputAsset.Some? {
      if HandlersOf(outputAsset).Some? && outputAsset.value.isLinked {
        var modelAsset := FirstWhere(runInputs, IsModelInput);
        if modelAsset.None? {
          return Failure(NoModelInput);
        }
        assets := assets + [modelAsset];
      }
    }
    assert assets == RequestedAssets(inputAsset, outputAsset, runInputs);
    return Success(Distinct(Present(assets)));
  }

  /** The progress messages reported before anything is fetched. */
  function LoadingMessages(pkg: JobResultPackage, env: Collaborators): (r: seq<Event>)
    ensures 1 <= |r| <= 3 && r[0] == Report("Loading.")
    ensures forall i :: 0 <= i < |r| ==> r[i].Report?
  {
    if !pkg.isCloudJob then [Report("Loading.")]
    else if !IsJobFinished(env.job) then [Report("Loading."), Report("Loading..")]
    else [Report("Loading."), Report("Loading.."), Report("Loading...")]
  }

  /** Loads the results of a job: readiness, asset set, fetch, preload, dispatch, input. */
  method LoadResult(pkg: JobResultPackage, env: Collaborators, inputAsset: Option<Asset>, outputAsset: Option<Asset>)
    returns (r: LoadOutcome)
    requires inputAsset.Some? ==> inputAsset.value.Input?
    requires outputAsset.Some? ==> outputAsset.value.Output?
    // the progress messages: "Loading." and, for a cloud job, "Loading.." and, once it is finished, "Loading..."
    ensures var messages := LoadingMessages(pkg, env);
            |messages| <= |r.trace| && r.trace[..|messages|] == messages
    // a job that is not ready stops the pipeline before anything is fetched
    ensures pkg.isCloudJob && !IsJobFinished(env.job) ==>
            r.error == Some(JobNotFinished(env.job.status)) && Fetches(r.trace) == []
    ensures !pkg.isCloudJob && !env.folderExists ==>
            r.error == Some(FolderNotFound(pkg.savedLocalPath)) && Fetches(r.trace) == []
    ensures IsReady(pkg, env) && BuildAssetSet(inputAsset, outputAsset, env.runInputs).Failure? ==>
            r.error == Some(NoModelInput) && Fetches(r.trace) == []
    // otherwise the asset set is fetched exactly once
    ensures IsReady(pkg, env) && BuildAssetSet(inputAsset, outputAsset, env.runInputs).Success? ==>
            Fetches(r.trace) == [BuildAssetSet(inputAsset, outputAsset, env.runInputs).value]
    // nothing is opened or invoked without a fetch
    ensures Fetches(r.trace) == [] ==> r.error.Some? && Opens(r.trace) == [] && Invokes(r.trace) == []
    // after the fetch: output dispatch, whose exception ends the load, then the requested input
    ensures Fetches(r.trace) == [] ==> r.trace == LoadingMessages(pkg, env)
    ensures Fetches(r.trace) != [] ==>
            LoadedAfterFetch(pkg, env, LoadingMessages(pkg, env), Fetches(r.trace)[0], inputAsset, outputAsset, r)
  {
    var trace := LoadingMessages(pkg, env);
    ReportsHaveNoEffects(trace);
    if pkg.isCloudJob && !IsJobFinished(env.job) {
      return LoadOutcome(trace, Some(JobNotFinished(env.job.status)));
    }
    if !pkg.isCloudJob && !env.folderExists {
      return LoadOutcome(trace, Some(FolderNotFound(pkg.savedLocalPath)));
    }

    var fetchList := CollectAssets(inputAsset, outputAsset, env.runInputs);
    if fetchList.Failure? {
      return LoadOutcome(trace, Some(fetchList.error));
    }
    r := LoadFetched(pkg, env, trace, fetchList.value, inputAsset, outputAsset);
  }
}
