/** `_convert_to_numpy` / `_convert_back`, the label-preserving converters the
    two scaler processors share (each file holds its own identical copy). */
module Conversion {
  import opened Frames

  /** What a caller hands a scaler, and what it gets back. */
  datatype ScalerData =
    | FrameData(columns: seq<string>, index: seq<int>, values: Matrix)
    | SeriesData(index: seq<int>, name: string, items: seq<real>)
    | ListData(items: seq<real>)
    | NestedList(rows: Matrix)
    | ArrayData(values: Matrix)

  /** A DataFrame's values match its labels, a Series' items its index. */
  predicate WellShaped(d: ScalerData) {
    match d
    case FrameData(columns, index, values) =>
      |values| == |index| && forall i :: 0 <= i < |values| ==> |values[i]| == |columns|
    case SeriesData(index, _, items) => |items| == |index|
    case NestedList(rows) => Rectangular(rows)
    case ArrayData(values) => Rectangular(values)
    case ListData(_) => true
  }

  /** `reshape(-1, 1)` of a flat vector. */
  function ColumnVector(xs: seq<real>): (m: Matrix)
    ensures |m| == |xs| && Rectangular(m)
    ensures forall i :: 0 <= i < |xs| ==> m[i] == [xs[i]]
  {
    seq(|xs|, i requires 0 <= i < |xs| => [xs[i]])
  }

  /** `flatten()`: the rows laid end to end. */
  function Flatten(m: Matrix): seq<real> {
    if m == [] then [] else m[0] + Flatten(m[1..])
  }

  lemma {:induction false} FlattenColumnVector(xs: seq<real>)
    ensures Flatten(ColumnVector(xs)) == xs
  {
    if xs != [] {
      assert ColumnVector(xs)[1..] == ColumnVector(xs[1..]);
      FlattenColumnVector(xs[1..]);
    }
  }

  /** `_convert_to_numpy`: a DataFrame gives its values, a Series or a list an
      n x 1 column (a nested list is flattened first), an array itself. */
  function ToNumpy(d: ScalerData): Matrix {
    match d
    case FrameData(_, _, values) => values
    case SeriesData(_, _, items) => ColumnVector(items)
    case ListData(items) => ColumnVector(items)
    case NestedList(rows) => ColumnVector(Flatten(rows))
    case ArrayData(values) => values
  }

  /** `_convert_back`: the transformed array, wrapped in the original's kind
      with its columns, index and name; a list comes back as nested lists. */
  function ConvertBack(original: ScalerData, t: Matrix): ScalerData {
    match original
    case FrameData(columns, index, _) => FrameData(columns, index, t)
    case SeriesData(index, name, _) => SeriesData(index, name, Flatten(t))
    case ListData(_) => NestedList(t)
    case NestedList(_) => NestedList(t)
    case ArrayData(_) => ArrayData(t)
  }

  /** Converting and converting back gives the original DataFrame, Series or
      array; a flat list comes back as its n x 1 nested form. */
  lemma ConvertRoundTrip(d: ScalerData)
    ensures !d.ListData? && !d.NestedList? ==> ConvertBack(d, ToNumpy(d)) == d
    ensures d.ListData? ==> ConvertBack(d, ToNumpy(d)) == NestedList(ColumnVector(d.items))
  {
    if d.SeriesData? {
      FlattenColumnVector(d.items);
    }
  }

  /** A Series or a list becomes an n x 1 column of its items; a well-shaped
      DataFrame gives one row per index entry and one column per label. */
  lemma ToNumpyShape(d: ScalerData)
    requires WellShaped(d)
    ensures d.SeriesData? || d.ListData? ==>
      |ToNumpy(d)| == |d.items| && forall i :: 0 <= i < |d.items| ==> ToNumpy(d)[i] == [d.items[i]]
    ensures d.FrameData? ==>
      |ToNumpy(d)| == |d.index| && forall i :: 0 <= i < |d.index| ==> |ToNumpy(d)[i]| == |d.columns|
    ensures Rectangular(ToNumpy(d))
  {
  }

  /** Whatever the transformed array, the result keeps the original's kind and
      labels: a DataFrame its columns and index, a Series its index and name. */
  lemma ConvertBackKeepsLabels(original: ScalerData, t: Matrix)
    ensures original.FrameData? ==>
      ConvertBack(original, t) == FrameData(original.columns, original.index, t)
    ensures original.SeriesData? ==>
      ConvertBack(original, t) == SeriesData(original.index, original.name, Flatten(t))
    ensures original.ListData? || original.NestedList? ==> ConvertBack(original, t) == NestedList(t)
    ensures original.ArrayData? ==> ConvertBack(original, t) == ArrayData(t)
  {
  }
}
