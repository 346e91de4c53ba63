/** The SDK's run assets, the values they carry once preloaded, and the observable
    effects of the result pipeline (messages, fetches, opened paths, invoked handlers). */
module Assets {
  import opened Wrappers
  import opened Text

  /** A host-application mesh. Meshes are only moved and appended, never inspected,
      so a mesh is identified by a token. */
  datatype Mesh = Mesh(id: nat)

  /** A Honeybee sensor grid: its geometry as a mesh. */
  datatype SensorGrid = SensorGrid(name: string, mesh: Mesh)

  /** A Honeybee model, reduced to what the result handlers read from it:
      `Properties.Radiance.SensorGrids`. */
  datatype HBModel = HBModel(sensorGrids: seq<SensorGrid>)

  /** A runtime object held in `PreloadedPath`, in a JSON list, or passed to a handler. */
  datatype Value =
    | Double(d: real)            // a boxed `double`
    | Text(s: string)            // a `string`
    | Items(items: seq<Value>)   // an `IList<object>`
    | Model(model: HBModel)      // a `HoneybeeSchema.Model`
    | OtherValue(tag: nat)       // any other object (a boxed integer, a dictionary, ...)

  /** `RunInputAsset` and `RunOutputAsset`. A handler is identified by its `Function` name.
      `isPath` is the answer of `IsPathAsset()`, and `values` is `Value` with each
      element already rendered by `ToString()`. */
  datatype Asset =
    | Input(name: string, localPath: Option<string>, preloaded: Option<Value>,
            runSource: Option<string>, isPath: bool, values: Option<seq<string>>)
    | Output(name: string, localPath: Option<string>, preloaded: Option<Value>,
             isLinked: bool, handlers: Option<seq<string>>)

  /** `Duplicate()` followed by an assignment to `PreloadedPath`. */
  function WithPreloaded(a: Asset, v: Option<Value>): Asset
  {
    match a
    case Input(name, localPath, _, runSource, isPath, values) => Input(name, localPath, v, runSource, isPath, values)
    case Output(name, localPath, _, isLinked, handlers) => Output(name, localPath, v, isLinked, handlers)
  }

  predicate IsInput(a: Asset) { a.Input? }

  predicate IsOutput(a: Asset) { a.Output? }

  /** The public static routines of `RhinoHandlers` a handler name can resolve to. */
  datatype Routine = LoadMeshBasedResultsToRhinoRoutine | HBModelToJSONRoutine | RhinoHBModelToJSONRoutine

  /** The names reflection resolves on `RhinoHandlers` (public static methods, case-sensitive). */
  const RhinoHandlerRoutines: map<string, Routine> := map[
    "LoadMeshBasedResultsToRhino" := LoadMeshBasedResultsToRhinoRoutine,
    "HBModelToJSON" := HBModelToJSONRoutine,
    "RhinoHBModelToJSON" := RhinoHBModelToJSONRoutine]

  /** What the pipeline does that someone outside can observe. */
  datatype Event =
    | Report(message: string)                      // a call of `reportMessage`
    | Fetch(assets: seq<Asset>)                     // the download / local-load request
    | Open(path: Option<string>)                    // `Core.Utility.OpenFileOrFolderPath`
    | Invoke(routine: Routine, args: seq<Asset>)    // `MethodInfo.Invoke` on a handler

  /** The exceptions of the modelled code. */
  datatype Error =
    | JobNotFinished(status: string)          // the cloud job has not finished yet
    | FolderNotFound(folder: Option<string>)  // the local simulation folder is missing
    | NoModelInput                            // `First(_ => _.Name == "model")` found nothing
    | RequestedInputMissing(name: string)     // the requested input is not among the loaded assets
    | InputValueMissing(name: string)         // a non-path input without a value list
    | NullModel                               // a null model handed to an export routine
    | NotAHoneybeeModel                       // a parameter that is neither a string nor a model
    | SaveFailed(path: string)                // the temporary model file does not exist after writing
    | ModelAssetMissing                       // no input asset among a handler's arguments
    | ResultAssetMissing                      // no output asset among a handler's arguments
    | PreloadedNotAModel                      // the input's preloaded value is not a model
    | PreloadedNotAList                       // the output's preloaded value is not a list
    | SeriesNotAList(index: nat)              // result series `index` is not a list
    | RunIdTooShort(id: string)               // `Substring(0, 5)` of a shorter string
    | HandlerFailed(cause: Error)             // a routine called by reflection threw `cause`

  /** `LocalPath?.ToLower()?.EndsWith(".hbjson")`, with null read as false. */
  predicate IsModelFile(path: Option<string>)
  {
    path.Some? && EndsWith(ToLower(path.value), ".hbjson")
  }

  /** `FirstOrDefault(p)`: the first asset satisfying `p`, or null. */
  function FirstWhere(s: seq<Asset>, p: Asset -> bool): (r: Option<Asset>)
    ensures r.None? <==> forall k :: 0 <= k < |s| ==> !p(s[k])
    ensures r.Some? ==> exists k :: 0 <= k < |s| && s[k] == r.value && p(s[k]) &&
                                    forall j :: 0 <= j < k ==> !p(s[j])
  {
    if s == [] then None
    else if p(s[0]) then Some(s[0])
    else
      var r := FirstWhere(s[1..], p);
      assert r.Some? ==> exists k :: 0 <= k < |s[1..]| && s[1..][k] == r.value && p(s[1..][k]) &&
                                     forall j :: 0 <= j < k ==> !p(s[1..][j]);
      assert r.Some? ==> exists k :: 1 <= k < |s| && s[k] == r.value && p(s[k]) &&
                                     forall j :: 0 <= j < k ==> !p(s[j]);
      r
  }

  /** The paths opened, in order. */
  function Opens(t: seq<Event>): seq<Option<string>>
  {
    if t == [] then [] else (if t[0].Open? then [t[0].path] else []) + Opens(t[1..])
  }

  /** The handler invocations, in order. */
  function Invokes(t: seq<Event>): seq<(Routine, seq<Asset>)>
  {
    if t == [] then [] else (if t[0].Invoke? then [(t[0].routine, t[0].args)] else []) + Invokes(t[1..])
  }

  /** The fetch requests, in order. */
  function Fetches(t: seq<Event>): seq<seq<Asset>>
  {
    if t == [] then [] else (if t[0].Fetch? then [t[0].assets] else []) + Fetches(t[1..])
  }

  lemma {:induction false} OpensOfSequence(a: seq<Event>, b: seq<Event>)
    ensures Opens(a + b) == Opens(a) + Opens(b)
  {
    if a != [] {
      OpensOfSequence(a[1..], b);
      assert (a + b)[0] == a[0] && (a + b)[1..] == a[1..] + b;
    } else {
      assert a + b == b;
    }
  }

  lemma {:induction false} InvokesOfSequence(a: seq<Event>, b: seq<Event>)
    ensures Invokes(a + b) == Invokes(a) + Invokes(b)
  {
    if a != [] {
      InvokesOfSequence(a[1..], b);
      assert (a + b)[0] == a[0] && (a + b)[1..] == a[1..] + b;
    } else {
      assert a + b == b;
    }
  }

  lemma {:induction false} FetchesOfSequence(a: seq<Event>, b: seq<Event>)
    ensures Fetches(a + b) == Fetches(a) + Fetches(b)
  {
    if a != [] {
      FetchesOfSequence(a[1..], b);
      assert (a + b)[0] == a[0] && (a + b)[1..] == a[1..] + b;
    } else {
      assert a + b == b;
    }
  }

  /** Messages alone fetch, open and invoke nothing. */
  lemma {:induction false} ReportsHaveNoEffects(t: seq<Event>)
    requires forall i :: 0 <= i < |t| ==> t[i].Report?
    ensures Opens(t) == [] && Invokes(t) == [] && Fetches(t) == []
  {
    if t != [] {
      ReportsHaveNoEffects(t[1..]);
    }
  }

  /** The effects of a single event. */
  lemma EffectsOfEvent(e: Event)
    ensures Opens([e]) == if e.Open? then [e.path] else []
    ensures Invokes([e]) == if e.Invoke? then [(e.routine, e.args)] else []
    ensures Fetches([e]) == if e.Fetch? then [e.assets] else []
  {
    assert [e][1..] == [];
  }

  /** The effects of two events, one after the other. */
  lemma EffectsOfPair(e1: Event, e2: Event)
    ensures Opens([e1, e2]) == Opens([e1]) + Opens([e2])
    ensures Invokes([e1, e2]) == Invokes([e1]) + Invokes([e2])
    ensures Fetches([e1, e2]) == Fetches([e1]) + Fetches([e2])
  {
    assert [e1, e2] == [e1] + [e2];
    EffectsOfSequence([e1], [e2]);
  }

  /** The effects of three events, one after the other. */
  lemma EffectsOfEvents(e1: Event, e2: Event, e3: Event)
    ensures Opens([e1, e2, e3]) == Opens([e1]) + Opens([e2]) + Opens([e3])
    ensures Invokes([e1, e2, e3]) == Invokes([e1]) + Invokes([e2]) + Invokes([e3])
    ensures Fetches([e1, e2, e3]) == Fetches([e1]) + Fetches([e2]) + Fetches([e3])
  {
    EffectsOfPair(e1, e2);
    assert [e1, e2, e3] == [e1, e2] + [e3];
    EffectsOfSequence([e1, e2], [e3]);
  }

  /** The effects of two stages run one after the other are those of the first, then those of the second. */
  lemma EffectsOfSequence(a: seq<Event>, b: seq<Event>)
    ensures Opens(a + b) == Opens(a) + Opens(b)
    ensures Invokes(a + b) == Invokes(a) + Invokes(b)
    ensures Fetches(a + b) == Fetches(a) + Fetches(b)
  {
    OpensOfSequence(a, b);
    InvokesOfSequence(a, b);
    FetchesOfSequence(a, b);
  }
}
