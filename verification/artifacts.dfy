/** The values the system persists: JSON documents, tables (parquet/csv),
    pickled scalers and exported model files. */
module Artifacts {
  import opened Wrappers
  import opened Frames

  datatype Json =
    | JNull
    | JBool(b: bool)
    | JInt(i: int)
    | JReal(r: real)
    | JStr(s: string)
    | JObject(fields: map<string, Json>)

  /** A fitted `MinMaxScaler`: per-column minimum and maximum of the fit data. */
  datatype MinMaxFit = MinMaxFit(dataMin: seq<real>, dataMax: seq<real>)

  /** A `MinMaxScaler(feature_range=(lo, hi))`, fitted or not. */
  datatype MinMaxState = MinMaxState(lo: real, hi: real, fit: Option<MinMaxFit>)

  /** A fitted `StandardScaler`: per-column mean and scale (standard deviation,
      a zero deviation replaced by 1). */
  datatype StandardFit = StandardFit(mean: seq<real>, scale: seq<real>)

  datatype Pickled = MinMaxPickle(minMax: MinMaxState) | StandardPickle(standard: Option<StandardFit>)

  /** The state of a learned model: its library kind and, once trained, the
      data it was trained on (the learner itself is abstract). */
  datatype ModelState = ModelState(kind: string, training: Option<(Matrix, seq<real>)>)

  datatype Blob =
    | JsonDoc(json: Json)
    | TableFile(table: Table)
    | Pickle(obj: Pickled)
    | ModelFile(model: ModelState)
}
