# Flood hazard prediction workflow — a Dafny model

The Flood Hazard Prediction System is a Streamlit page. The user uploads a CSV table and a spatial file, picks a target column and feature columns, trains a random forest, and views the predictions on a map. Most of its work is done by library calls. This project models the logic the repository adds around those calls and proves properties of it:

- **`App`** (`app.py`): the session. `Session` is a class with seven optional slots (`df`, `gdf`, `model`, `X_train`, `X_test`, `y_train`, `y_test`) and the set of slots already created in `st.session_state`. Each of its methods is one menu step, guarded by a None-check. A failed guard yields a `Warned` outcome and changes nothing. `OutputFolder` is a class holding the two prediction files of the `outputs` folder. `Run` is one rerun of the script: the slots are initialised, then one page runs.
- **`DataLoader`** (`utils/data_loader.py`): the spatial-upload dispatch. It lower-cases the name and tests the suffixes `.geojson`, `.zip` and `.shp` in that order. For a zip it picks the first top-level `.shp` entry. There are three error outcomes.
- **`Visualizer`** (`utils/visualizer.py`): the prediction map. It has a row-count guard, attaches the predictions by position to a copy of the spatial table, and lists the distinct classes in order of first appearance. The palette is a slice of a fixed four-colour list. Each feature is coloured by its class's position among the distinct classes.
- **`ModelTrainer`** (`utils/model_trainer.py`): the split defaults (0.3, 42) and the model-type dispatch. Only the exact string `"Random Forest"` trains.
- **`Frames`** and **`Wrappers`**: the table values (DataFrame, GeoDataFrame, prediction rows) and `Option`/`Result`.

These library calls are function parameters and are not interpreted:
- scikit-learn's `train_test_split`, `fit` and `predict`
- geopandas' `read_file`

The outcome of `pd.read_csv` on the uploaded CSV, and the top-level listing of the directory a zip is extracted into, are inputs.

The model follows the code, also where its behaviour may look unintended:
- Re-uploading a CSV does not discard the split or the model (`App.ReuploadKeepsStaleSplit`).
- The prediction-map step checks only for spatial data and for the test-prediction file on disk. It never looks at the `model` slot (`App.PredictionMapWithoutModel`).
- A fifth distinct class does not fall back to gray. Its palette lookup raises an `IndexError` that the style function does not catch (`Visualizer.DisplayPredictionMap` returns `ColourIndexOutOfRange`).
- A zip may hold several `.shp` files. The first one in the listing is read.
- The accepted model name is `"Random Forest"`, with a space.

## Model

| member | source | states |
|---|---|---|
| `App.Session.constructor` | flood_hazard_prediction/app.py:21-22 | a new session has created none of the slots |
| `App.Session.InitSlots` | flood_hazard_prediction/app.py:22-35 | every missing slot is created as None; a slot that already exists keeps its value; afterwards all seven exist |
| `App.Session.LoadData` | flood_hazard_prediction/app.py:44-54 | a CSV upload sets only `df`, a spatial upload sets only `gdf` (through `load_shapefile`); model and split slots are untouched, so stale derived data survives; a CSV parse error ends the step before the spatial upload, a spatial error leaves `gdf` as it was |
| `App.Session.DisplayMaps` | flood_hazard_prediction/app.py:57-63 | shows the map exactly when `gdf` is present, otherwise warns; changes nothing |
| `App.Session.SelectVariables` | flood_hazard_prediction/app.py:66-87 | with no `df` it only warns; the four split slots are written together, from the split of `df[features]`, `df[target]` at `split/100`, exactly when a feature and a truthy target are chosen (assuming `train_test_split` returns); `df`, `gdf`, `model` never change |
| `App.Candidates` | flood_hazard_prediction/app.py:72 | the feature choices are exactly the columns other than the target, and never contain the target |
| `App.TargetNotAFeature` | flood_hazard_prediction/app.py:71-72 | any feature list the widgets can produce excludes the chosen target and names existing columns |
| `App.TestFraction` | flood_hazard_prediction/app.py:74-78 | a slider value in {10, 15, …, 50} gives the fraction value/100, which lies in [0.1, 0.5] |
| `App.Session.Train` | flood_hazard_prediction/app.py:90-119 | guarded only by `X_train`; `model` is assigned only after `train_model` returns (assuming `fit` and `predict` return), so an unsupported type leaves `model` and the files unchanged; on success both prediction files pair the labels with the predictions row by row |
| `App.OutputFolder.constructor` | flood_hazard_prediction/app.py:125 | the folder starts with whatever prediction files are on disk |
| `App.OutputFolder.SavePredictions` | flood_hazard_prediction/app.py:111-115 | both prediction files are (over)written |
| `App.Session.VisualizePredictionMap` | flood_hazard_prediction/app.py:122-130 | runs the map exactly when `gdf` and the test-prediction file exist, without consulting `model`; a shown map has as many rows as the file |
| `App.Session.Run` | flood_hazard_prediction/app.py:13-130 | one rerun initialises all slots, then each slot changes only on its own page: tables on Load Data, split on Variable Selection, model and files on Train Model; the two map pages change nothing |
| `App.ReuploadKeepsStaleSplit` | flood_hazard_prediction/app.py:44-84 | after splitting a first table, uploading a second replaces `df` and keeps the split of the first |
| `App.PredictionMapWithoutModel` | flood_hazard_prediction/app.py:125-130 | with only spatial data loaded and no model, a prediction file already on disk is shown |
| `DataLoader.MessagesDistinct` | flood_hazard_prediction/utils/data_loader.py:26-35 | the three `ValueError` messages differ, so the message tells the error apart |
| `DataLoader.SuffixesExclusive` | flood_hazard_prediction/utils/data_loader.py:13-35 | no name ends in two of `.geojson`, `.zip`, `.shp` |
| `DataLoader.FormatOf` | flood_hazard_prediction/utils/data_loader.py:12-35 | the branch taken is decided by the suffix of the lower-cased name, and exactly one branch fires |
| `DataLoader.LowerIdempotent` | flood_hazard_prediction/utils/data_loader.py:12 | lower-casing twice is lower-casing once |
| `DataLoader.FormatIgnoresCase` | flood_hazard_prediction/utils/data_loader.py:12 | the suffix dispatch is case-insensitive |
| `DataLoader.ShpFiles` | flood_hazard_prediction/utils/data_loader.py:24 | the filtered list holds exactly the listing entries ending in `.shp`, a case-sensitive test |
| `DataLoader.LoadShapefile` | flood_hazard_prediction/utils/data_loader.py:7-37 | GeoJSON reads the upload; a zip reads its first `.shp` entry or fails with "No .shp file found" when there is none; a bare `.shp` always fails asking for a zip and reads nothing; any other suffix fails as unsupported |
| `DataLoader.FirstShpEntryIsRead` | flood_hazard_prediction/utils/data_loader.py:24-28 | the entry read from a zip is the first one in the listing that ends in `.shp` |
| `DataLoader.ListingOnlyReadForZip` | flood_hazard_prediction/utils/data_loader.py:15-28 | the extracted listing matters only for a zip upload |
| `DataLoader.EntrySuffixIsCaseSensitive` | flood_hazard_prediction/utils/data_loader.py:12-26 | `Data.ZIP` is taken as a zip, but its entry `DATA.SHP` is not found |
| `ModelTrainer.SplitDefaults` | flood_hazard_prediction/utils/model_trainer.py:5-9 | states what `TrainTestSplitData` does: it hands its arguments to the library split unchanged, and omitted arguments pass test size 0.3 and seed 42 to the library, unchanged |
| `ModelTrainer.NotImplementedMessage` | flood_hazard_prediction/utils/model_trainer.py:22 | the error message contains the requested model type |
| `ModelTrainer.TrainModel` | flood_hazard_prediction/utils/model_trainer.py:12-24 | assuming `fit` and `predict` return, it trains exactly when the type is `"Random Forest"`, fitting a 100-tree forest seeded with 42; it returns the model, then the predictions on the training and on the test features; any other type raises `NotImplementedError` naming the type |
| `ModelTrainer.OnlyExactNameTrains` | flood_hazard_prediction/utils/model_trainer.py:16 | "Deep Learning (coming soon)", a lower-case variant and a variant with a trailing space all fail |
| `Frames.Select` | flood_hazard_prediction/app.py:77 | `df[features]` has exactly the chosen columns, with their cells and the same row count |
| `Frames.Column` | flood_hazard_prediction/app.py:77 | `df[target]` has one cell per row |
| `Frames.PredictionTable` | flood_hazard_prediction/app.py:112-115 | row i of a prediction file pairs the i-th label with the i-th prediction |
| `Frames.PredictedColumn` | flood_hazard_prediction/utils/visualizer.py:19 | the `Predicted` column has one entry per row, in row order |
| `Frames.PredictedColumnOfTable` | flood_hazard_prediction/app.py:114-127 | reading back the test file gives exactly the test predictions |
| `Visualizer.IndexOf` | flood_hazard_prediction/utils/visualizer.py:34 | `list.index` gives the first position of the class, and fails exactly when the class is absent |
| `Visualizer.UniqueClasses` | flood_hazard_prediction/utils/visualizer.py:22 | the distinct classes contain every predicted value exactly once and nothing else |
| `Visualizer.UniqueClassesInFirstAppearanceOrder` | flood_hazard_prediction/utils/visualizer.py:22 | the distinct classes are ordered by their first appearance |
| `Visualizer.PaletteSlice` | flood_hazard_prediction/utils/visualizer.py:24 | `["green", "yellow", "orange", "red"][:k]` is the first k palette entries, or the whole palette when k exceeds four, never an error |
| `Visualizer.MakeColormap` | flood_hazard_prediction/utils/visualizer.py:23-28 | for k classes the colours are the first min(k, 4) palette entries, distinct and never gray, and the index has the k+1 boundaries 0..k, so with k ≤ 4 there is one colour per step |
| `Visualizer.GrayOnlyForUnknownClass` | flood_hazard_prediction/utils/visualizer.py:30-37 | states what `StyleFunction` does: gray is used exactly for a class not among the distinct classes; any other class gets the palette entry at its position |
| `Visualizer.DisplayPredictionMap` | flood_hazard_prediction/utils/visualizer.py:13-28 | it fails on a row-count mismatch before anything else, and with more than four classes on the uncaught style lookup; otherwise the layer is the input plus a `Prediction` column holding the predictions by row, with one style per row |
| `Visualizer.FillIsPaletteAtClassPosition` | flood_hazard_prediction/utils/visualizer.py:30-43 | states what `StyleFunction` returns inside `DisplayPredictionMap`: each feature's fill is the palette entry at its class's position, with a black border of weight 1 and opacity 0.6 |
| `Visualizer.SameColourIffSameClass` | flood_hazard_prediction/utils/visualizer.py:22-35 | two features share a fill colour exactly when they share a predicted class |
| `Visualizer.OtherColumnsKept` | flood_hazard_prediction/utils/visualizer.py:18-19 | every other attribute column of the input keeps its cells in the copy |

## Left out

- Streamlit itself: page config, widgets, `st.write`, `st.success`. Warnings are named values (`App.Warning`), not their texts. A widget value is a parameter. Where a widget limits its values, the model requires that limit: the target is a column, the features are candidates, the slider is a multiple of 5 from 10 to 50.
- `App.Session.DisplayMaps`: `utils/map_utils.py` is not part of this model. The step returns the spatial table it would draw. The early return on an empty table and the folium drawing are not modelled.
- `utils/evaluator.py` is not part of this model. Its only modelled effect is that predictions of another length than the labels raise before any file is written (`PredictionLengthMismatch`).
- `utils/preprocessing.py` is not part of this model. `app.py` does not call it.
- The internals of `train_test_split`, `RandomForestClassifier.fit` and `predict`, and of geopandas' `read_file`. They are uninterpreted function parameters, so a test-size percentage does not turn into row counts here. Determinism under a fixed seed is only that these are functions.
- File I/O: the temporary directory and zip extraction, `os.makedirs`, and `pd.read_csv`. A CSV read is given as its outcome. The `to_csv`/`read_csv` round trip of a prediction file is taken to be the identity.
- `DataLoader.LowerIdempotent`: Python's `str.lower` is modelled on ASCII letters only. Unicode case mapping is not modelled.
- `Visualizer.DisplayPredictionMap`: `gdf.copy()` is modelled by value semantics. The input cannot change, but aliasing is not represented. The column is attached by row position. pandas aligns it by index label, which agrees only when the spatial table's index is 0..n-1, as the function's docstring assumes.
- `Visualizer.StyleFunction` requires the class's position to be within the colour list. The source raises an uncaught `IndexError` there. That failure is reported once, for the whole map, as `ColourIndexOutOfRange`, not per feature.
- branca's own checks of the colour-map arguments and its colour-name parsing are not modelled. Neither is folium rendering, the centroid of the union of the geometries (floating-point geometry), or the tooltip.
- `App.Session.LoadData`: geopandas' `read_file` is assumed to return. If it raises, the step ends and `gdf` stays as it was.
- `App.Session.SelectVariables`: `train_test_split` is assumed to return. If it raises (too few rows for the test size, say), the step ends and the four split slots stay as they were.
- `App.Session.Train`: `fit` and `predict` are assumed to return. If one raises (a text feature column, say), the step ends and `model` and the prediction files stay as they were.
- `App.OutputFolder`: the folder is shared by every session on the host. Concurrent sessions are not modelled.
- `App.Candidates`: column names are strings. pandas allows other labels, whose truthiness differs.
