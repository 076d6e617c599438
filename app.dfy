/** The Streamlit script: seven session slots, created empty on the first
    run and kept across reruns, and five menu steps, each guarded by a
    None-check on the slots it needs. A failed guard shows a warning and
    changes nothing. The prediction files the training step writes live in
    the `outputs` folder, outside the session. */
module App {
  import opened Wrappers
  import opened Frames
  import DataLoader
  import ModelTrainer
  import Visualizer

  /** The keys the script creates in `st.session_state`. */
  datatype Slot = Df | Gdf | Model | XTrain | XTest | YTrain | YTest

  const AllSlots: set<Slot> := {Df, Gdf, Model, XTrain, XTest, YTrain, YTest}

  /** The five entries of the sidebar menu; one of them runs per rerun of the script. */
  datatype Page = LoadDataPage | DisplayMapsPage | VariableSelectionPage | TrainModelPage | PredictionMapPage

  /** The advisory messages of the failed guards. */
  datatype Warning = UploadSpatialFirst | UploadTabularFirst | SelectVariablesFirst | NeedSpatialAndPredictions

  /** The exceptions that end a step. */
  datatype Failure =
    | CsvUnreadable(reason: string)
    | SpatialLoadFailed(loadError: DataLoader.LoadError)
    | TrainingFailed(trainError: ModelTrainer.TrainError)
    | PredictionLengthMismatch
    | PredictionMapFailed(mapError: Visualizer.MapError)

  /** What a step ends with. */
  datatype Outcome<G> =
    | Done
    | NothingToDo
    | Warned(warning: Warning)
    | Raised(failure: Failure)
    | ShownMap(spatial: GeoFrame<G>)
    | ShownPredictionMap(view: Visualizer.PredictionMap<G>)

  /** A spatial upload: its file name, and the top-level listing of the temporary
      directory if it is a zip that gets extracted. */
  datatype SpatialUpload = SpatialUpload(name: string, extracted: seq<string>)

  /** What the widgets of the page hand to the script on one rerun. The CSV upload
      is given as the outcome of `pd.read_csv` on it. */
  datatype Widgets = Widgets(
    csv: Option<Result<Table, string>>,
    spatial: Option<SpatialUpload>,
    target: Option<string>,
    features: seq<string>,
    testSizePct: int,
    modelType: string,
    trainPressed: bool)

  /** The library calls the script makes and the model does not interpret. */
  datatype Services<G, !M> = Services(
    readSpatial: DataLoader.Source -> GeoFrame<G>,
    split: ModelTrainer.Splitter,
    estimator: ModelTrainer.Estimator<M>)

  /** The values of the seven slots. */
  datatype Slots<G, M> = Slots(
    df: Option<Table>,
    gdf: Option<GeoFrame<G>>,
    model: Option<M>,
    xTrain: Option<Table>,
    xTest: Option<Table>,
    yTrain: Option<seq<Cell>>,
    yTest: Option<seq<Cell>>)

  function EmptySlots<G, M>(): Slots<G, M>
  {
    Slots(None, None, None, None, None, None, None)
  }

  /** The values the test-size slider can take: 10 to 50 in steps of 5. */
  predicate IsSliderValue(v: int)
  {
    10 <= v <= 50 && v % 5 == 0
  }

  /** `split / 100`, the fraction handed to the split. */
  function TestFraction(pct: int): (f: real)
    requires IsSliderValue(pct)
    ensures 0.1 <= f <= 0.5
    ensures f * 100.0 == pct as real
  {
    pct as real / 100.0
  }

  /** `[col for col in df.columns if col != target]`, the choices of the feature multiselect. */
  function Candidates(columns: seq<string>, target: Option<string>): (r: seq<string>)
    ensures target.Some? ==> target.value !in r
    ensures forall c :: c in r <==> c in columns && Some(c) != target
    ensures |r| <= |columns|
  {
    if columns == [] then []
    else (if Some(columns[0]) != target then [columns[0]] else []) + Candidates(columns[1..], target)
  }

  /** Python truthiness of the selected target: present and not the empty string. */
  predicate Truthy(target: Option<string>)
  {
    target.Some? && target.value != ""
  }

  /** What the widgets of the selection page can produce for a table: the select box
      gives a column (None only when there is none), the multiselect a choice among the
      candidates, and the slider one of its values. */
  predicate ValidSelection(t: Table, target: Option<string>, features: seq<string>, testSizePct: int)
  {
    && (target.None? <==> t.columns == [])
    && (target.Some? ==> target.value in t.columns)
    && (forall f :: f in features ==> f in Candidates(t.columns, target))
    && IsSliderValue(testSizePct)
  }

  /** The chosen target is never among the features handed to the split. */
  lemma TargetNotAFeature(t: Table, target: Option<string>, features: seq<string>, testSizePct: int)
    requires ValidSelection(t, target, features, testSizePct) && target.Some?
    ensures target.value !in features
    ensures forall f :: f in features ==> f in t.columns
  {
  }

  /** The `outputs` folder: the two prediction files, when they exist. */
  class OutputFolder {
    var trainPredictions: Option<seq<PredictionRow>>
    var testPredictions: Option<seq<PredictionRow>>

    /** The folder as found on disk, possibly holding files of an earlier session. */
    constructor(train: Option<seq<PredictionRow>>, test: Option<seq<PredictionRow>>)
      ensures trainPredictions == train && testPredictions == test
    {
      trainPredictions := train;
      testPredictions := test;
    }

    /** `to_csv` of both prediction tables, overwriting earlier files. */
    method SavePredictions(train: seq<PredictionRow>, test: seq<PredictionRow>)
      modifies this
      ensures trainPredictions == Some(train) && testPredictions == Some(test)
    {
      trainPredictions := Some(train);
      testPredictions := Some(test);
    }
  }

  class Session<G, M> {
    /** The slots already created in `st.session_state`. */
    var present: set<Slot>
    var df: Option<Table>
    var gdf: Option<GeoFrame<G>>
    var model: Option<M>
    var xTrain: Option<Table>
    var xTest: Option<Table>
    var yTrain: Option<seq<Cell>>
    var yTest: Option<seq<Cell>>

    function Snapshot(): Slots<G, M>
      reads this
    {
      Slots(df, gdf, model, xTrain, xTest, yTrain, yTest)
    }

    /** The slots are created together, the table is a well-formed DataFrame,
        the four split slots are set together, and nothing derived exists before
        what it is derived from: no split without a table, no model without a split. */
    ghost predicate Valid()
      reads this
    {
      && (present == {} || present == AllSlots)
      && (df.Some? ==> WellFormed(df.value))
      && xTrain.Some? == xTest.Some? == yTrain.Some? == yTest.Some?
      && (xTrain.Some? ==> df.Some?)
      && (model.Some? ==> xTrain.Some?)
    }

    /** A new browser session: `st.session_state` holds no key yet. */
    constructor()
      ensures Valid() && present == {}
    {
      present := {};
      df, gdf, model := None, None, None;
      xTrain, xTest, yTrain, yTest := None, None, None, None;
    }

    /** The slot initialisation at the top of every rerun: each missing slot is
        created as None, and an existing slot is left as it is. */
    method InitSlots()
      requires Valid()
      modifies this
      ensures Valid() && present == AllSlots
      ensures df == (if Df in old(present) then old(df) else None)
      ensures gdf == (if Gdf in old(present) then old(gdf) else None)
      ensures model == (if Model in old(present) then old(model) else None)
      ensures xTrain == (if XTrain in old(present) then old(xTrain) else None)
      ensures xTest == (if XTest in old(present) then old(xTest) else None)
      ensures yTrain == (if YTrain in old(present) then old(yTrain) else None)
      ensures yTest == (if YTest in old(present) then old(yTest) else None)
    {
      if Df !in present { df := None; }
      if Gdf !in present { gdf := None; }
      if Model !in present { model := None; }
      if XTrain !in present { xTrain := None; }
      if XTest !in present { xTest := None; }
      if YTrain !in present { yTrain := None; }
      if YTest !in present { yTest := None; }
      present := present + AllSlots;
    }

    /** "Load Data": a CSV upload sets `df`, then a spatial upload sets `gdf`. Nothing
        else is touched, so a split and a model built from an earlier table survive. */
    method LoadData(csv: Option<Result<Table, string>>, spatial: Option<SpatialUpload>,
                    readSpatial: DataLoader.Source -> GeoFrame<G>) returns (out: Outcome<G>)
      requires Valid() && present == AllSlots
      requires csv.Some? && csv.value.Ok? ==> WellFormed(csv.value.value)
      modifies this
      ensures Valid() && present == AllSlots
      ensures Snapshot() == old(Snapshot()).(df := df, gdf := gdf)
      ensures csv.Some? && csv.value.Err? ==> out == Raised(CsvUnreadable(csv.value.error)) && Snapshot() == old(Snapshot())
      ensures csv.None? || csv.value.Ok? ==>
        && df == (if csv.Some? then Some(csv.value.value) else old(df))
        && (spatial.None? ==> gdf == old(gdf) && out == (if csv.Some? then Done else NothingToDo))
        && (spatial.Some? ==>
              var r := DataLoader.LoadShapefile(readSpatial, spatial.value.name, spatial.value.extracted);
              && (r.Ok? ==> gdf == Some(r.value) && out == Done)
              && (r.Err? ==> gdf == old(gdf) && out == Raised(SpatialLoadFailed(r.error))))
    {
      out := NothingToDo;
      if csv.Some? {
        match csv.value
        case Err(reason) =>
          return Raised(CsvUnreadable(reason));
        case Ok(table) =>
          df := Some(table);
          out := Done;
      }
      if spatial.Some? {
        var r := DataLoader.LoadShapefile(readSpatial, spatial.value.name, spatial.value.extracted);
        match r
        case Err(e) =>
          return Raised(SpatialLoadFailed(e));
        case Ok(g) =>
          gdf := Some(g);
          out := Done;
      }
    }

    /** "Display Maps": needs `gdf`; changes nothing. */
    method DisplayMaps() returns (out: Outcome<G>)
      ensures gdf.Some? ==> out == ShownMap(gdf.value)
      ensures gdf.None? ==> out == Warned(UploadSpatialFirst)
    {
      if gdf.Some? {
        out := ShownMap(gdf.value);
      } else {
        out := Warned(UploadSpatialFirst);
      }
    }

    /** "Variable Selection": needs `df`. The four split slots are written together,
        and only once a feature and a target are chosen. */
    method SelectVariables(split: ModelTrainer.Splitter, target: Option<string>, features: seq<string>, testSizePct: int)
      returns (out: Outcome<G>)
      requires Valid() && present == AllSlots
      requires df.Some? ==> ValidSelection(df.value, target, features, testSizePct)
      modifies this
      ensures Valid() && present == AllSlots
      ensures df == old(df) && gdf == old(gdf) && model == old(model)
      ensures df.None? ==> out == Warned(UploadTabularFirst) && Snapshot() == old(Snapshot())
      ensures df.Some? && (features == [] || !Truthy(target)) ==> out == NothingToDo && Snapshot() == old(Snapshot())
      ensures df.Some? && features != [] && Truthy(target) ==>
        var s := ModelTrainer.TrainTestSplitData(split, Select(df.value, features), Column(df.value, target.value),
                                                 TestFraction(testSizePct));
        && out == Done
        && xTrain == Some(s.xTrain) && xTest == Some(s.xTest)
        && yTrain == Some(s.yTrain) && yTest == Some(s.yTest)
    {
      if df.None? {
        return Warned(UploadTabularFirst);
      }
      var table := df.value;
      if features != [] && Truthy(target) {
        var x, y := Select(table, features), Column(table, target.value);
        var s := ModelTrainer.TrainTestSplitData(split, x, y, TestFraction(testSizePct));
        xTrain, xTest, yTrain, yTest := Some(s.xTrain), Some(s.xTest), Some(s.yTrain), Some(s.yTest);
        out := Done;
      } else {
        out := NothingToDo;
      }
    }

    /** "Train Model": needs `X_train` only. `model` is assigned once `train_model`
        returns, so an unsupported type leaves the model and the files as they were;
        the files are written after the evaluation of both predictions. */
    method Train(est: ModelTrainer.Estimator<M>, modelType: string, pressed: bool, outputs: OutputFolder)
      returns (out: Outcome<G>)
      requires Valid() && present == AllSlots
      modifies this, outputs
      ensures Valid() && present == AllSlots
      ensures Snapshot() == old(Snapshot()).(model := model)
      ensures xTrain.None? ==> out == Warned(SelectVariablesFirst) && model == old(model) && unchanged(outputs)
      ensures xTrain.Some? && !pressed ==> out == NothingToDo && model == old(model) && unchanged(outputs)
      ensures xTrain.Some? && pressed ==>
        var r := ModelTrainer.TrainModel(est, modelType, xTrain.value, yTrain.value, xTest.value);
        && (r.Err? ==> out == Raised(TrainingFailed(r.error)) && model == old(model) && unchanged(outputs))
        && (r.Ok? ==> model == Some(r.value.model))
        && (r.Ok? && |r.value.trainPredictions| == |yTrain.value| && |r.value.testPredictions| == |yTest.value| ==>
              && out == Done
              && outputs.trainPredictions == Some(PredictionTable(yTrain.value, r.value.trainPredictions))
              && outputs.testPredictions == Some(PredictionTable(yTest.value, r.value.testPredictions)))
        && (r.Ok? && (|r.value.trainPredictions| != |yTrain.value| || |r.value.testPredictions| != |yTest.value|) ==>
              out == Raised(PredictionLengthMismatch) && unchanged(outputs))
    {
      if xTrain.None? {
        return Warned(SelectVariablesFirst);
      }
      if !pressed {
        return NothingToDo;
      }
      var r := ModelTrainer.TrainModel(est, modelType, xTrain.value, yTrain.value, xTest.value);
      if r.Err? {
        return Raised(TrainingFailed(r.error));
      }
      model := Some(r.value.model);
      // Evaluating (and tabulating) predictions of another length than the labels raises.
      if |r.value.trainPredictions| != |yTrain.value| || |r.value.testPredictions| != |yTest.value| {
        return Raised(PredictionLengthMismatch);
      }
      outputs.SavePredictions(PredictionTable(yTrain.value, r.value.trainPredictions),
                              PredictionTable(yTest.value, r.value.testPredictions));
      out := Done;
    }

    /** "Visualize Prediction Map": needs `gdf` and the test-prediction file on disk.
        The `model` slot is not consulted. */
    method VisualizePredictionMap(outputs: OutputFolder) returns (out: Outcome<G>)
      ensures gdf.None? || outputs.testPredictions.None? ==> out == Warned(NeedSpatialAndPredictions)
      ensures gdf.Some? && outputs.testPredictions.Some? ==>
        var r := Visualizer.DisplayPredictionMap(gdf.value, outputs.testPredictions.value);
        && (r.Ok? ==> out == ShownPredictionMap(r.value))
        && (r.Err? ==> out == Raised(PredictionMapFailed(r.error)))
      ensures out.ShownPredictionMap? ==>
        gdf.Some? && outputs.testPredictions.Some? && |gdf.value.geometry| == |outputs.testPredictions.value|
    {
      if gdf.Some? && outputs.testPredictions.Some? {
        var r := Visualizer.DisplayPredictionMap(gdf.value, outputs.testPredictions.value);
        match r
        case Ok(view) => out := ShownPredictionMap(view);
        case Err(e) => out := Raised(PredictionMapFailed(e));
      } else {
        out := Warned(NeedSpatialAndPredictions);
      }
    }

    /** One rerun of the script: the slots are initialised, then the chosen page runs.
        Each slot can change only on its own page. */
    method Run(page: Page, w: Widgets, lib: Services<G, M>, outputs: OutputFolder) returns (out: Outcome<G>)
      requires Valid()
      requires page == LoadDataPage && w.csv.Some? && w.csv.value.Ok? ==> WellFormed(w.csv.value.value)
      requires page == VariableSelectionPage && present == AllSlots && df.Some? ==>
        ValidSelection(df.value, w.target, w.features, w.testSizePct)
      modifies this, outputs
      ensures Valid() && present == AllSlots
      ensures var before := if old(present) == AllSlots then old(Snapshot()) else EmptySlots();
        && (page != LoadDataPage ==> df == before.df && gdf == before.gdf)
        && (page != VariableSelectionPage ==>
              xTrain == before.xTrain && xTest == before.xTest && yTrain == before.yTrain && yTest == before.yTest)
        && (page != TrainModelPage ==> model == before.model)
        && (page == DisplayMapsPage || page == PredictionMapPage ==> Snapshot() == before)
      ensures page != TrainModelPage ==> unchanged(outputs)
    {
      InitSlots();
      match page
      case LoadDataPage => out := LoadData(w.csv, w.spatial, lib.readSpatial);
      case DisplayMapsPage => out := DisplayMaps();
      case VariableSelectionPage => out := SelectVariables(lib.split, w.target, w.features, w.testSizePct);
      case TrainModelPage => out := Train(lib.estimator, w.modelType, w.trainPressed, outputs);
      case PredictionMapPage => out := VisualizePredictionMap(outputs);
    }
  }

  /** After a table is split, uploading a second table replaces `df` but keeps the split of the first. */
  method ReuploadKeepsStaleSplit<G, M>(lib: Services<G, M>,
                                       first: Table, second: Table, target: string, features: seq<string>)
    returns (s: Session<G, M>)
    requires WellFormed(first) && WellFormed(second)
    requires ValidSelection(first, Some(target), features, 30) && features != [] && target != ""
    ensures s.df == Some(second)
    ensures var split := ModelTrainer.TrainTestSplitData(lib.split, Select(first, features), Column(first, target));
      && s.xTrain == Some(split.xTrain) && s.xTest == Some(split.xTest)
      && s.yTrain == Some(split.yTrain) && s.yTest == Some(split.yTest)
  {
    s := new Session<G, M>();
    s.InitSlots();
    var _ := s.LoadData(Some(Ok(first)), None, lib.readSpatial);
    s.InitSlots();
    var _ := s.SelectVariables(lib.split, Some(target), features, 30);
    assert TestFraction(30) == 0.3;
    s.InitSlots();
    var _ := s.LoadData(Some(Ok(second)), None, lib.readSpatial);
  }

  /** The prediction map is drawn from whatever test-prediction file is on disk:
      in a session that has loaded only spatial data, and has no model, a file left
      by an earlier training run is shown. */
  method PredictionMapWithoutModel<G, M>(outputs: OutputFolder, name: string, spatial: GeoFrame<G>)
    returns (s: Session<G, M>, out: Outcome<G>)
    requires DataLoader.FormatOf(name) == DataLoader.GeoJson
    requires outputs.testPredictions.Some? && |spatial.geometry| == |outputs.testPredictions.value|
    requires |Visualizer.UniqueClasses(PredictedColumn(outputs.testPredictions.value))| <= |Visualizer.Palette|
    ensures s.model == None && s.df == None && s.xTrain == None
    ensures out.ShownPredictionMap? && out.view.layer.geometry == spatial.geometry
  {
    s := new Session<G, M>();
    s.InitSlots();
    var _ := s.LoadData(None, Some(SpatialUpload(name, [])), _ => spatial);
    s.InitSlots();
    out := s.VisualizePredictionMap(outputs);
  }
}
