/** The tables the workflow moves around: pandas DataFrames read from the
    uploaded CSV, GeoDataFrames read from the spatial upload, and the
    prediction files written after training. */
module Frames {

  /** One cell of a table. The workflow only stores, selects and compares cells. */
  datatype Cell = Number(x: real) | Text(s: string)

  /** A DataFrame: its column names in order, the cells of each column, and its row count. */
  datatype Table = Table(columns: seq<string>, cells: map<string, seq<Cell>>, rowCount: nat)

  /** Every listed column has cells, one per row. */
  predicate WellFormed(t: Table)
  {
    forall c :: c in t.columns ==> c in t.cells && |t.cells[c]| == t.rowCount
  }

  /** `df[names]`: the sub-table of the named columns, in the order given. */
  function Select(t: Table, names: seq<string>): (r: Table)
    requires WellFormed(t)
    requires forall n :: n in names ==> n in t.columns
    ensures WellFormed(r) && r.columns == names && r.rowCount == t.rowCount
    ensures forall n :: n in names ==> r.cells[n] == t.cells[n]
  {
    Table(names, map n | n in names :: t.cells[n], t.rowCount)
  }

  /** `df[name]`: the cells of one column. */
  function Column(t: Table, name: string): (col: seq<Cell>)
    requires WellFormed(t) && name in t.columns
    ensures |col| == t.rowCount
  {
    t.cells[name]
  }

  /** A GeoDataFrame: one geometry per row and the attribute columns. The
      geometry itself is never inspected by the modelled code. */
  datatype GeoFrame<G> = GeoFrame(geometry: seq<G>, attributes: map<string, seq<Cell>>)

  /** One row of a prediction file: the columns `Actual` and `Predicted`. */
  datatype PredictionRow = PredictionRow(actual: Cell, predicted: Cell)

  /** `pd.DataFrame({"Actual": actual, "Predicted": predicted})`: row i pairs the i-th entries. */
  function PredictionTable(actual: seq<Cell>, predicted: seq<Cell>): (rows: seq<PredictionRow>)
    requires |actual| == |predicted|
    ensures |rows| == |actual|
    ensures forall i :: 0 <= i < |rows| ==> rows[i].actual == actual[i] && rows[i].predicted == predicted[i]
  {
    seq(|actual|, i requires 0 <= i < |actual| => PredictionRow(actual[i], predicted[i]))
  }

  /** `preds['Predicted']`: the predicted column of a prediction file. */
  function PredictedColumn(rows: seq<PredictionRow>): (col: seq<Cell>)
    ensures |col| == |rows|
    ensures forall i :: 0 <= i < |rows| ==> col[i] == rows[i].predicted
  {
    seq(|rows|, i requires 0 <= i < |rows| => rows[i].predicted)
  }

  /** Reading back a file written from two equally long columns gives back the predicted column. */
  lemma PredictedColumnOfTable(actual: seq<Cell>, predicted: seq<Cell>)
    requires |actual| == |predicted|
    ensures PredictedColumn(PredictionTable(actual, predicted)) == predicted
  {
  }
}
