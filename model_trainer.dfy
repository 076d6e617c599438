/** The two entry points of the training helper: the train/test split with
    its fixed defaults, and the dispatch on the model type chosen in the UI.
    scikit-learn's `train_test_split`, `RandomForestClassifier.fit` and
    `predict` are not interpreted: they are function parameters. */
module ModelTrainer {
  import opened Wrappers
  import opened Frames

  const DefaultTestSize: real := 0.3
  const DefaultRandomState: int := 42

  /** The only model type that trains; the UI also offers "Deep Learning (coming soon)". */
  const RandomForest: string := "Random Forest"
  const ComingSoon: string := "Deep Learning (coming soon)"

  /** The four parts `train_test_split` returns, in its order. */
  datatype Split = Split(xTrain: Table, xTest: Table, yTrain: seq<Cell>, yTest: seq<Cell>)

  /** `train_test_split(X, y, test_size=..., random_state=...)`. */
  type Splitter = (Table, seq<Cell>, real, int) -> Split

  /** The constructor arguments of the forest. */
  datatype ForestParams = ForestParams(nEstimators: nat, randomState: int)

  const Forest: ForestParams := ForestParams(100, 42)

  /** The estimator calls `train_model` makes: `fit` gives the fitted model, `predict` its predictions. */
  datatype Estimator<!M> = Estimator(fit: (ForestParams, Table, seq<Cell>) -> M, predict: (M, Table) -> seq<Cell>)

  /** What `train_model` returns: the model, then its predictions on the training and on the test features. */
  datatype Trained<M> = Trained(model: M, trainPredictions: seq<Cell>, testPredictions: seq<Cell>)

  datatype TrainError = NotImplementedError(message: string)

  /** `train_test_split_data`: the library split with the caller's test size and seed, 0.3 and 42 when omitted. */
  function TrainTestSplitData(split: Splitter, x: Table, y: seq<Cell>,
                              testSize: real := DefaultTestSize, randomState: int := DefaultRandomState): Split
  {
    split(x, y, testSize, randomState)
  }

  /** Omitting the optional arguments passes 0.3 and 42 to the library, unchanged. */
  lemma SplitDefaults(split: Splitter, x: Table, y: seq<Cell>)
    ensures TrainTestSplitData(split, x, y) == split(x, y, 0.3, 42)
    ensures forall t :: TrainTestSplitData(split, x, y, t) == split(x, y, t, 42)
  {
  }

  /** `s` occurs in `text` starting at position `k`. */
  predicate OccursAt(text: string, s: string, k: int)
  {
    0 <= k && k + |s| <= |text| && text[k..k + |s|] == s
  }

  /** `s in text`, Python's substring test. */
  predicate Contains(text: string, s: string)
  {
    exists k | 0 <= k <= |text| :: OccursAt(text, s, k)
  }

  function NotImplementedMessage(modelType: string): (msg: string)
    ensures Contains(msg, modelType)
  {
    var prefix := "Model type '";
    var msg := prefix + modelType + "' is not implemented yet.";
    assert OccursAt(msg, modelType, |prefix|);
    msg
  }

  /** `train_model`: only the exact string "Random Forest" trains, a forest of
      100 trees seeded with 42; anything else raises `NotImplementedError`. */
  function TrainModel<M>(est: Estimator<M>, modelType: string, xTrain: Table, yTrain: seq<Cell>, xTest: Table)
    : (r: Result<Trained<M>, TrainError>)
    ensures r.Ok? <==> modelType == RandomForest
    ensures r.Ok? ==>
      && r.value.model == est.fit(Forest, xTrain, yTrain)
      && r.value.trainPredictions == est.predict(r.value.model, xTrain)
      && r.value.testPredictions == est.predict(r.value.model, xTest)
    ensures r.Err? ==> Contains(r.error.message, modelType)
  {
    if modelType == RandomForest then
      var model := est.fit(Forest, xTrain, yTrain);
      Ok(Trained(model, est.predict(model, xTrain), est.predict(model, xTest)))
    else
      Err(NotImplementedError(NotImplementedMessage(modelType)))
  }

  /** The match is exact: the second menu entry, and any change of case, is refused. */
  lemma OnlyExactNameTrains<M>(est: Estimator<M>, xTrain: Table, yTrain: seq<Cell>, xTest: Table)
    ensures TrainModel(est, ComingSoon, xTrain, yTrain, xTest).Err?
    ensures TrainModel(est, "random forest", xTrain, yTrain, xTest).Err?
    ensures TrainModel(est, "Random Forest ", xTrain, yTrain, xTest).Err?
  {
  }
}
