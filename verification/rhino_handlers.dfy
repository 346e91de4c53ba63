/** `RhinoHandlers`: the routines a handler name resolves to. Two export a Honeybee model
    to a temporary ".hbjson" file; one merges per-grid results into one coloured mesh. */
module RhinoHandlers {
  import opened Wrappers
  import opened Sequences
  import opened Text
  import opened Assets

  // ---------------------------------------------------------------- model export

  /** `Path.Combine(Path.GetTempPath(), Path.GetRandomFileName() + ".hbjson")`; the temporary
      directory is given with its trailing separator, as `GetTempPath` returns it. */
  function TempModelPath(tempDir: string, randomName: string): string
  {
    tempDir + randomName + ".hbjson"
  }

  /** Lower-casing works character by character, so it distributes over concatenation. */
  lemma ToLowerOfConcat(a: string, b: string)
    ensures ToLower(a + b) == ToLower(a) + ToLower(b)
  {
  }

  /** Every temporary model file is one the preload pass recognises as a model. */
  lemma TempModelPathIsModelFile(tempDir: string, randomName: string)
    ensures IsModelFile(Some(TempModelPath(tempDir, randomName)))
  {
    var p := TempModelPath(tempDir, randomName);
    ToLowerOfConcat(tempDir + randomName, ".hbjson");
    assert ToLower(".hbjson") == ".hbjson";
    assert ToLower(p)[|p| - 7..] == ToLower(".hbjson");
  }

  /** Writing the model to the temporary file; `written` is what `File.Exists` says afterwards. */
  function SaveModel(tempDir: string, randomName: string, written: bool): (r: Result<string, Error>)
    ensures r.Success? <==> written
    ensures r.Success? ==> IsModelFile(Some(r.value))
    ensures !written ==> r == Failure(SaveFailed(TempModelPath(tempDir, randomName)))
  {
    TempModelPathIsModelFile(tempDir, randomName);
    var temp := TempModelPath(tempDir, randomName);
    if written then Success(temp) else Failure(SaveFailed(temp))
  }

  /** `RhinoHBModelToJSON`: export the model of the current scene entity; its parameter is ignored. */
  function RhinoHBModelToJSON(current: Option<HBModel>, tempDir: string, randomName: string, written: bool)
    : (r: Result<string, Error>)
    ensures current.None? ==> r == Failure(NullModel)
    ensures current.Some? ==> r == SaveModel(tempDir, randomName, written)
    ensures r.Success? ==> IsModelFile(Some(r.value))
  {
    if current.None? then Failure(NullModel)
    else SaveModel(tempDir, randomName, written)
  }

  /** `HBModelToJSON`: null is refused, a string is returned unchanged,
      a model is exported, and anything else is refused. */
  function HBModelToJSON(param: Option<Value>, tempDir: string, randomName: string, written: bool)
    : (r: Result<string, Error>)
    ensures param.None? ==> r == Failure(NullModel)
    ensures param.Some? && param.value.Text? ==> r == Success(param.value.s)
    ensures param.Some? && !param.value.Text? && !param.value.Model? ==> r == Failure(NotAHoneybeeModel)
    ensures param.Some? && param.value.Model? ==> r == SaveModel(tempDir, randomName, written)
    ensures r.Success? && !(param.Some? && param.value.Text?) ==> IsModelFile(Some(r.value))
  {
    match param
    case None => Failure(NullModel)
    case Some(Text(s)) => Success(s)
    case Some(Model(_)) => SaveModel(tempDir, randomName, written)
    case Some(_) => Failure(NotAHoneybeeModel)
  }

  // ---------------------------------------------------------------- grid/result merge

  /** The mesh and the numbers handed to the host as one analytical mesh. */
  datatype MergedResults = MergedResults(mesh: seq<Mesh>, numbers: seq<real>)

  /** `OfType<double>()`: the numbers of a list, in order; everything else is dropped. */
  function Doubles(values: seq<Value>): (r: seq<real>)
    ensures |r| <= |values|
  {
    if values == [] then []
    else (if values[0].Double? then [values[0].d] else []) + Doubles(values[1..])
  }

  /** The numbers kept are exactly the numbers of the list. */
  lemma {:induction false} DoublesKeepsExactlyNumbers(values: seq<Value>)
    ensures forall i :: 0 <= i < |Doubles(values)| ==> Double(Doubles(values)[i]) in values
    ensures forall i :: 0 <= i < |values| && values[i].Double? ==> values[i].d in Doubles(values)
  {
    if values != [] {
      var rest := values[1..];
      DoublesKeepsExactlyNumbers(rest);
      var head := if values[0].Double? then [values[0].d] else [];
      var r := Doubles(values);
      assert r == head + Doubles(rest);
      forall i | 0 <= i < |r| ensures Double(r[i]) in values {
        if i >= |head| {
          assert r[i] == Doubles(rest)[i - |head|];
          assert Double(r[i]) in rest;
        }
      }
      forall i | 0 <= i < |values| && values[i].Double? ensures values[i].d in r {
        if i > 0 {
          assert values[i] == rest[i - 1];
        }
      }
    }
  }

  /** The numbers of two lists one after the other are those of the first, then those of the second. */
  lemma {:induction false} DoublesOfConcat(a: seq<Value>, b: seq<Value>)
    ensures Doubles(a + b) == Doubles(a) + Doubles(b)
  {
    if a == [] {
      assert a + b == b;
    } else {
      var head := if a[0].Double? then [a[0].d] else [];
      DoublesOfConcat(a[1..], b);
      assert (a + b)[0] == a[0];
      assert (a + b)[1..] == a[1..] + b;
      assert Doubles(a + b) == head + Doubles(a[1..] + b);
      assert Doubles(a) == head + Doubles(a[1..]);
    }
  }

  /** The meshes of the paired grids, in pair order. */
  function MeshesOf(pairs: seq<(SensorGrid, Value)>): seq<Mesh>
  {
    seq(|pairs|, i requires 0 <= i < |pairs| => pairs[i].0.mesh)
  }

  /** Every paired result series is a list. */
  predicate AllSeriesAreLists(pairs: seq<(SensorGrid, Value)>)
  {
    forall i :: 0 <= i < |pairs| ==> pairs[i].1.Items?
  }

  /** The numbers of each paired series, in pair order. */
  function NumbersOf(pairs: seq<(SensorGrid, Value)>): seq<seq<real>>
    requires AllSeriesAreLists(pairs)
  {
    seq(|pairs|, i requires 0 <= i < |pairs| => Doubles(pairs[i].1.items))
  }

  /** One pass of the merge loop: pair i adds its mesh and its numbers at the end. */
  lemma MergeStep(pairs: seq<(SensorGrid, Value)>, i: nat)
    requires i < |pairs|
    requires AllSeriesAreLists(pairs[..i]) && pairs[i].1.Items?
    ensures AllSeriesAreLists(pairs[..i + 1])
    ensures MeshesOf(pairs[..i + 1]) == MeshesOf(pairs[..i]) + [pairs[i].0.mesh]
    ensures Flatten(NumbersOf(pairs[..i + 1])) == Flatten(NumbersOf(pairs[..i])) + Doubles(pairs[i].1.items)
  {
    var done := pairs[..i + 1];
    assert done[..i] == pairs[..i];
    assert AllSeriesAreLists(done);
    var ss := NumbersOf(done);
    assert ss[..i] == NumbersOf(pairs[..i]);
    assert ss[i] == Doubles(pairs[i].1.items);
  }

  /** The loop's exit on a series that is not a list: it is the first such series. */
  lemma FirstNonList(pairs: seq<(SensorGrid, Value)>, i: nat)
    requires i < |pairs| && AllSeriesAreLists(pairs[..i]) && !pairs[i].1.Items?
    ensures !AllSeriesAreLists(pairs)
    ensures forall j :: 0 <= j < i ==> pairs[j].1.Items?
  {
    assert forall j :: 0 <= j < i ==> pairs[..i][j] == pairs[j];
  }

  /** The merge loop: grid i is paired with series i, meshes are appended in pair order and
      numbers concatenated in pair order; the first series that is not a list is an exception. */
  method MergeGridResults(grids: seq<SensorGrid>, series: seq<Value>) returns (r: Result<MergedResults, Error>)
    ensures var pairs := Zip(grids, series);
      && (r.Success? <==> AllSeriesAreLists(pairs))
      && (r.Success? ==> r.value.mesh == MeshesOf(pairs) && r.value.numbers == Flatten(NumbersOf(pairs)))
      && (r.Failure? ==> r.error.SeriesNotAList? && r.error.index < |pairs| &&
                         !pairs[r.error.index].1.Items? &&
                         forall j :: 0 <= j < r.error.index ==> pairs[j].1.Items?)
  {
    var gridResults := Zip(grids, series);
    var mergedMesh: seq<Mesh> := [];
    var resultNumbers: seq<real> := [];
    for i := 0 to |gridResults|
      invariant AllSeriesAreLists(gridResults[..i])
      invariant mergedMesh == MeshesOf(gridResults[..i])
      invariant resultNumbers == Flatten(NumbersOf(gridResults[..i]))
    {
      var (grid, values) := gridResults[i];
      if !values.Items? {
        FirstNonList(gridResults, i);
        return Failure(SeriesNotAList(i));
      }
      var numbers := Doubles(values.items);
      var mesh := grid.mesh;
      MergeStep(gridResults, i);
      mergedMesh := mergedMesh + [mesh];
      resultNumbers := resultNumbers + numbers;
    }
    assert gridResults[..|gridResults|] == gridResults;
    return Success(MergedResults(mergedMesh, resultNumbers));
  }

  /** The merged mesh pairs grid i with series i for as many pairs as the shorter list allows. */
  lemma MergedMeshPairsByPosition(grids: seq<SensorGrid>, series: seq<Value>)
    ensures var m := MeshesOf(Zip(grids, series));
            && |m| == (if |grids| <= |series| then |grids| else |series|)
            && forall i :: 0 <= i < |m| ==> m[i] == grids[i].mesh
  {
  }

  /** No index drift: the numbers of series i sit in the merged list right after the numbers
      of the series before it. */
  lemma MergedNumbersOfGrid(grids: seq<SensorGrid>, series: seq<Value>, i: nat)
    requires AllSeriesAreLists(Zip(grids, series))
    requires i < |Zip(grids, series)|
    ensures var ss := NumbersOf(Zip(grids, series));
            var start := |Flatten(ss[..i])|;
            start + |Doubles(series[i].items)| <= |Flatten(ss)| &&
            Flatten(ss)[start..start + |Doubles(series[i].items)|] == Doubles(series[i].items)
  {
    FlattenPartAt(NumbersOf(Zip(grids, series)), i);
  }

  /** Three grids and two result lists: two pairs, no exception. */
  lemma MergeTruncatesToShorter(g0: SensorGrid, g1: SensorGrid, g2: SensorGrid, s0: seq<Value>, s1: seq<Value>)
    ensures var pairs := Zip([g0, g1, g2], [Items(s0), Items(s1)]);
            |pairs| == 2 && AllSeriesAreLists(pairs) && MeshesOf(pairs) == [g0.mesh, g1.mesh]
  {
  }

  // ---------------------------------------------------------------- run id and layer

  /** The run id: the first five characters of the last '/' segment of the run source, or of a
      fresh GUID string when there is no source or that segment is empty. */
  function RunIdOf(runSource: Option<string>, guid: string): (r: Result<string, Error>)
    ensures r.Success? ==> |r.value| == 5
  {
    var segment := if runSource.Some? then LastSegment(runSource.value) else "";
    var runId := if segment == "" then guid else segment;
    if |runId| < 5 then Failure(RunIdTooShort(runId)) else Success(runId[..5])
  }

  /** With a non-empty last segment, the run id is its first five characters: they directly
      follow the last '/' of the source and hold no '/'. A shorter segment is an exception. */
  lemma RunIdFromSource(source: string, guid: string)
    requires LastSegment(source) != ""
    ensures var segment := LastSegment(source);
      && (RunIdOf(Some(source), guid).Success? <==> |segment| >= 5)
      && (|segment| >= 5 ==>
            var id := RunIdOf(Some(source), guid).value;
            && id == source[|source| - |segment|..|source| - |segment| + 5]
            && '/' !in id
            && (|segment| < |source| ==> source[|source| - |segment| - 1] == '/'))
  {
    var segment := LastSegment(source);
    LastSegmentFollowsLastSlash(source);
    if |segment| >= 5 {
      assert source[|source| - |segment|..|source| - |segment| + 5] == segment[..5];
    }
  }

  /** Without a usable source the GUID string (36 characters) supplies the run id. */
  lemma RunIdFromGuid(runSource: Option<string>, guid: string)
    requires runSource.None? || LastSegment(runSource.value) == ""
    requires |guid| >= 5
    ensures RunIdOf(runSource, guid) == Success(guid[..5])
  {
  }

  /** The last segment of "proj/runs/AB12345" is "AB12345". */
  lemma LastSegmentExample()
    ensures LastSegment("proj/runs/AB12345") == "AB12345"
  {
    var parts := ["proj", "runs", "AB12345"];
    assert Join(parts, '/') == "proj/runs/AB12345" by {
      assert parts[1..][1..] == ["AB12345"];
      assert Join(parts[1..], '/') == "runs" + "/" + "AB12345";
      assert Join(parts, '/') == "proj" + "/" + ("runs" + "/" + "AB12345");
    }
    assert forall k :: 0 <= k < |parts| ==> '/' !in parts[k];
    SplitJoin(parts, '/');
  }

  /** With a GUID string as fallback (36 characters), the run id fails only on a non-empty
      last segment shorter than five characters, and names that segment. */
  lemma RunIdFailsOnlyOnShortSegment(runSource: Option<string>, guid: string)
    requires |guid| == 36
    ensures RunIdOf(runSource, guid).Failure? <==>
            runSource.Some? && 0 < |LastSegment(runSource.value)| < 5
    ensures RunIdOf(runSource, guid).Failure? ==>
            RunIdOf(runSource, guid).error == RunIdTooShort(LastSegment(runSource.value))
  {
  }

  /** "proj/runs/AB12345" gives the run id "AB123". */
  lemma RunIdExample(guid: string)
    ensures RunIdOf(Some("proj/runs/AB12345"), guid) == Success("AB123")
  {
    LastSegmentExample();
    var segment := LastSegment("proj/runs/AB12345");
    assert |segment| == 7;
    assert segment[..5] == "AB123";
  }

  /** The layer the merged mesh goes to. */
  function LayerName(runId: string): string
  {
    "RESULT-" + runId
  }

  // ---------------------------------------------------------------- the handler

  /** The merged results added to the document on one layer. */
  datatype ResultLayer = ResultLayer(mesh: seq<Mesh>, numbers: seq<real>, layerName: string)

  /** The model preloaded on the first input among the handler's arguments. */
  function PreloadedModel(results: seq<Asset>): Option<HBModel>
  {
    var input := FirstWhere(results, IsInput);
    if input.Some? && input.value.preloaded.Some? && input.value.preloaded.value.Model?
    then Some(input.value.preloaded.value.model) else None
  }

  /** The result series preloaded on the first output among the handler's arguments. */
  function PreloadedSeries(results: seq<Asset>): Option<seq<Value>>
  {
    var output := FirstWhere(results, IsOutput);
    if output.Some? && output.value.preloaded.Some? && output.value.preloaded.value.Items?
    then Some(output.value.preloaded.value.items) else None
  }

  /** `LoadMeshBasedResultsToRhino`: join the model's sensor grids with the preloaded result
      series and put the merged mesh on layer "RESULT-<run id>". */
  method LoadMeshBasedResultsToRhino(results: seq<Asset>, guid: string) returns (r: Result<ResultLayer, Error>)
    requires |guid| == 36  // the text of a fresh GUID
    ensures FirstWhere(results, IsInput).None? ==> r == Failure(ModelAssetMissing)
    ensures FirstWhere(results, IsInput).Some? && FirstWhere(results, IsOutput).None? ==>
            r == Failure(ResultAssetMissing)
    ensures (FirstWhere(results, IsInput).Some? && FirstWhere(results, IsOutput).Some? &&
             PreloadedModel(results).None?) ==> r == Failure(PreloadedNotAModel)
    ensures (PreloadedModel(results).Some? && FirstWhere(results, IsOutput).Some? &&
             PreloadedSeries(results).None?) ==> r == Failure(PreloadedNotAList)
    ensures r.Success? <==>
            && PreloadedModel(results).Some? && PreloadedSeries(results).Some?
            && AllSeriesAreLists(Zip(PreloadedModel(results).value.sensorGrids, PreloadedSeries(results).value))
            && RunIdOf(FirstWhere(results, IsInput).value.runSource, guid).Success?
    // once both are preloaded: the merge's exception comes first, then the run id's
    ensures PreloadedModel(results).Some? && PreloadedSeries(results).Some? ==>
            var pairs := Zip(PreloadedModel(results).value.sensorGrids, PreloadedSeries(results).value);
            var runId := RunIdOf(FirstWhere(results, IsInput).value.runSource, guid);
            && (!AllSeriesAreLists(pairs) ==>
                  r.Failure? && r.error.SeriesNotAList? && r.error.index < |pairs| &&
                  !pairs[r.error.index].1.Items? && forall j :: 0 <= j < r.error.index ==> pairs[j].1.Items?)
            && (AllSeriesAreLists(pairs) && runId.Failure? ==> r == Failure(runId.error))
    ensures r.Success? ==>
            var pairs := Zip(PreloadedModel(results).value.sensorGrids, PreloadedSeries(results).value);
            && r.value.mesh == MeshesOf(pairs)
            && r.value.numbers == Flatten(NumbersOf(pairs))
            && r.value.layerName == LayerName(RunIdOf(FirstWhere(results, IsInput).value.runSource, guid).value)
  {
    var modelAsset := FirstWhere(results, IsInput);
    var resultAsset := FirstWhere(results, IsOutput);
    if modelAsset.None? {
      return Failure(ModelAssetMissing);
    }
    if resultAsset.None? {
      return Failure(ResultAssetMissing);
    }
    var model := PreloadedModel(results);
    var res := PreloadedSeries(results);
    if model.None? {
      return Failure(PreloadedNotAModel);
    }
    if res.None? {
      return Failure(PreloadedNotAList);
    }
    var merged := MergeGridResults(model.value.sensorGrids, res.value);
    if merged.Failure? {
      return Failure(merged.error);
    }
    var runId := RunIdOf(modelAsset.value.runSource, guid);
    if runId.Failure? {
      return Failure(runId.error);
    }
    r := Success(ResultLayer(merged.value.mesh, merged.value.numbers, LayerName(runId.value)));
  }
}
