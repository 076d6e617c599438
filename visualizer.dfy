/** The prediction map: predictions are attached by row position to a copy
    of the spatial table, the distinct predicted classes are listed in order
    of first appearance, and each feature is filled with the palette colour
    at its class's position in that list. Map drawing (folium, the centroid
    of the union of the geometries, branca's colour parsing) is not modelled;
    colours stay names from the fixed palette. */
module Visualizer {
  import opened Wrappers
  import opened Frames

  datatype Colour = Green | Yellow | Orange | Red | Gray | Black

  /** The fixed palette, in order. */
  const Palette: seq<Colour> := [Green, Yellow, Orange, Red]

  const PredictionColumn: string := "Prediction"
  const Caption: string := "Flood Hazard Prediction"

  predicate Distinct<T(==)>(s: seq<T>)
  {
    forall i, j :: 0 <= i < j < |s| ==> s[i] != s[j]
  }

  /** Python's `list.index`: the first position of `x`, or None where it raises `ValueError`. */
  function IndexOf<T(==)>(s: seq<T>, x: T): (r: Option<nat>)
    ensures r.None? <==> x !in s
    ensures r.Some? ==> r.value < |s| && s[r.value] == x
    ensures r.Some? ==> forall j :: 0 <= j < r.value ==> s[j] != x
  {
    if s == [] then None
    else if s[0] == x then Some(0)
    else match IndexOf(s[1..], x)
      case None => None
      case Some(k) => Some(k + 1)
  }

  /** pandas' `Series.unique()`: each value once, kept where it first appears. */
  function UniqueClasses<T(==)>(s: seq<T>): (u: seq<T>)
    ensures forall i :: 0 <= i < |s| ==> s[i] in u
    ensures forall i :: 0 <= i < |u| ==> u[i] in s
    ensures Distinct(u)
    ensures |u| <= |s|
  {
    if s == [] then []
    else
      var prev := UniqueClasses(s[..|s| - 1]);
      assert s == s[..|s| - 1] + [s[|s| - 1]];
      if s[|s| - 1] in prev then prev else prev + [s[|s| - 1]]
  }

  /** Appending a value does not move the first position of a value already present. */
  lemma {:induction false} IndexOfExtend<T>(p: seq<T>, last: T, x: T)
    requires x in p
    ensures IndexOf(p + [last], x) == IndexOf(p, x)
  {
    if p[0] != x {
      assert (p + [last])[1..] == p[1..] + [last];
      IndexOfExtend(p[1..], last, x);
    }
  }

  /** The distinct classes are listed in the order of their first appearance. */
  lemma {:induction false} UniqueClassesInFirstAppearanceOrder<T>(s: seq<T>, i: nat, j: nat)
    requires i < j < |UniqueClasses(s)|
    ensures IndexOf(s, UniqueClasses(s)[i]).Some? && IndexOf(s, UniqueClasses(s)[j]).Some?
    ensures IndexOf(s, UniqueClasses(s)[i]).value < IndexOf(s, UniqueClasses(s)[j]).value
  {
    var u := UniqueClasses(s);
    var p, last := s[..|s| - 1], s[|s| - 1];
    assert s == p + [last];
    var up := UniqueClasses(p);
    assert u[i] in u && u[j] in u;
    if j < |up| {
      assert u[i] == up[i] && u[j] == up[j];
      assert up[i] in up && up[j] in up;
      UniqueClassesInFirstAppearanceOrder(p, i, j);
      IndexOfExtend(p, last, up[i]);
      IndexOfExtend(p, last, up[j]);
    } else {
      assert u[j] == last && last !in p;
      assert u[i] == up[i] && up[i] in up;
      IndexOfExtend(p, last, up[i]);
      assert IndexOf(s, last).value == |p|;
    }
  }

  /** The branca step colour map built for k classes. */
  datatype StepColormap = StepColormap(colors: seq<Colour>, index: seq<int>, vmin: int, vmax: int, caption: string)

  /** `["green", "yellow", "orange", "red"][:k]`, a Python slice that stops at the end of the list. */
  function PaletteSlice(k: nat): (c: seq<Colour>)
    ensures |c| == (if k <= |Palette| then k else |Palette|)
    ensures forall i :: 0 <= i < |c| ==> c[i] == Palette[i]
  {
    if k <= |Palette| then Palette[..k] else Palette
  }

  function MakeColormap(k: nat): (cm: StepColormap)
    ensures |cm.colors| == (if k <= |Palette| then k else |Palette|)
    ensures forall i :: 0 <= i < |cm.colors| ==> cm.colors[i] == Palette[i]
    ensures Distinct(cm.colors) && Gray !in cm.colors
    ensures |cm.index| == k + 1 && forall i :: 0 <= i <= k ==> cm.index[i] == i
    ensures cm.vmin == 0 && cm.vmax == k
    ensures k <= |Palette| ==> |cm.index| == |cm.colors| + 1
  {
    StepColormap(PaletteSlice(k), seq(k + 1, i requires 0 <= i <= k => i), 0, k, Caption)
  }

  /** The style of one feature. */
  datatype Style = Style(fillColor: Colour, color: Colour, weight: nat, fillOpacity: real)

  /** `style_function`: the colour at the class's position in `unique`, gray where
      `list.index` raises `ValueError`. A position past the colour list would raise
      `IndexError`, which the function does not catch; callers must rule it out. */
  function StyleFunction<T(==)>(unique: seq<T>, cm: StepColormap, predClass: T): (st: Style)
    requires IndexOf(unique, predClass).Some? ==> IndexOf(unique, predClass).value < |cm.colors|
  {
    var fill := match IndexOf(unique, predClass)
      case Some(idx) => cm.colors[idx]
      case None => Gray;
    Style(fill, Black, 1, 0.6)
  }

  /** With the colour map of the distinct classes, gray is used exactly for a class that is not among them. */
  lemma GrayOnlyForUnknownClass<T>(unique: seq<T>, predClass: T)
    requires |unique| <= |Palette|
    ensures StyleFunction(unique, MakeColormap(|unique|), predClass).fillColor == Gray <==> predClass !in unique
    ensures predClass in unique ==>
      StyleFunction(unique, MakeColormap(|unique|), predClass).fillColor == Palette[IndexOf(unique, predClass).value]
  {
  }

  datatype MapError =
    | RowCountMismatch       // the ValueError raised before anything is copied
    | ColourIndexOutOfRange  // the IndexError raised by the style lookup of a fifth class

  /** What the map shows: the copied table with its `Prediction` column, the
      distinct classes, the colour map and the style of every feature. */
  datatype PredictionMap<G> = PredictionMap(layer: GeoFrame<G>, uniqueClasses: seq<Cell>, colormap: StepColormap, styles: seq<Style>)

  /** `display_prediction_map`. `preds` is the prediction file read back; its rows
      are attached to the spatial rows by position. */
  function DisplayPredictionMap<G>(gdf: GeoFrame<G>, preds: seq<PredictionRow>): (r: Result<PredictionMap<G>, MapError>)
    ensures r == Err(RowCountMismatch) <==> |gdf.geometry| != |preds|
    ensures r == Err(ColourIndexOutOfRange) <==>
      |gdf.geometry| == |preds| && |UniqueClasses(PredictedColumn(preds))| > |Palette|
    ensures r.Ok? ==>
      && r.value.layer.geometry == gdf.geometry
      && r.value.layer.attributes == gdf.attributes[PredictionColumn := PredictedColumn(preds)]
      && r.value.uniqueClasses == UniqueClasses(PredictedColumn(preds))
      && r.value.colormap == MakeColormap(|r.value.uniqueClasses|)
      && |r.value.styles| == |preds|
  {
    if |gdf.geometry| != |preds| then Err(RowCountMismatch)
    else
      var copy := gdf.(attributes := gdf.attributes[PredictionColumn := PredictedColumn(preds)]);
      var predicted := copy.attributes[PredictionColumn];
      var unique := UniqueClasses(predicted);
      var cm := MakeColormap(|unique|);
      if |unique| > |Palette| then Err(ColourIndexOutOfRange)
      else
        Ok(PredictionMap(copy, unique, cm,
          seq(|predicted|, i requires 0 <= i < |predicted| => StyleFunction(unique, cm, predicted[i]))))
  }

  /** Every feature is filled with the palette entry at its class's position among the distinct classes. */
  lemma FillIsPaletteAtClassPosition<G>(gdf: GeoFrame<G>, preds: seq<PredictionRow>, i: nat)
    requires DisplayPredictionMap(gdf, preds).Ok? && i < |preds|
    ensures var m := DisplayPredictionMap(gdf, preds).value;
      && IndexOf(m.uniqueClasses, preds[i].predicted).Some?
      && m.styles[i].fillColor == Palette[IndexOf(m.uniqueClasses, preds[i].predicted).value]
      && m.styles[i].color == Black && m.styles[i].weight == 1 && m.styles[i].fillOpacity == 0.6
  {
  }

  /** Two features share a fill colour exactly when they share a predicted class. */
  lemma SameColourIffSameClass<G>(gdf: GeoFrame<G>, preds: seq<PredictionRow>, i: nat, j: nat)
    requires DisplayPredictionMap(gdf, preds).Ok? && i < |preds| && j < |preds|
    ensures var m := DisplayPredictionMap(gdf, preds).value;
      m.styles[i].fillColor == m.styles[j].fillColor <==> preds[i].predicted == preds[j].predicted
  {
  }

  /** The input table is not changed: the result's layer is the input plus one column, and
      every other attribute column keeps its cells. */
  lemma OtherColumnsKept<G>(gdf: GeoFrame<G>, preds: seq<PredictionRow>, name: string)
    requires DisplayPredictionMap(gdf, preds).Ok? && name in gdf.attributes && name != PredictionColumn
    ensures DisplayPredictionMap(gdf, preds).value.layer.attributes[name] == gdf.attributes[name]
  {
  }
}
