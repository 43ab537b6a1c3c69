/** `generate_sequences`: the sliding-window builder that turns a
    (samples x features) array into overlapping input windows, each paired
    with the target value of the row right after it. */
module DataProcessing {
  import opened Wrappers
  import opened Frames

  /** numpy's resolution of a column index against a row of `width` cells:
      negative indices count from the end, anything else out of range is an
      IndexError. */
  function ResolveColumn(width: nat, c: int): (r: Option<nat>)
    ensures r.Some? <==> -(width as int) <= c < width
    ensures r.Some? ==> r.value < width && (r.value == c || r.value == c + width)
  {
    if 0 <= c < width then Some(c)
    else if -(width as int) <= c < 0 then Some(c + width)
    else None
  }

  /** The windows and their targets, as two parallel lists. */
  datatype Sequences = Sequences(windows: seq<Matrix>, targets: seq<real>)

  /** What `generate_sequences` produces: nothing when the data is shorter than
      the window; otherwise windows i = 0 .. len - L - 1 with their targets, or
      an IndexError when there is at least one window and the target column
      does not exist. */
  function Windows(data: Matrix, len: nat, targetColumn: int): Result<Sequences>
    requires Rectangular(data)
  {
    if |data| <= len then Success(Sequences([], []))
    else
      match ResolveColumn(Width(data), targetColumn)
      case None => Failure("IndexError")
      case Some(c) =>
        Success(Sequences(seq(|data| - len, i requires 0 <= i < |data| - len => data[i..i + len]),
                          seq(|data| - len, i requires 0 <= i < |data| - len => data[i + len][c])))
  }

  /** The loop of `generate_sequences`, appending one window and one target
      per iteration. */
  method GenerateSequences(data: Matrix, len: nat, targetColumn: int) returns (r: Result<Sequences>)
    requires Rectangular(data)
    ensures r == Windows(data, len, targetColumn)
  {
    var windows: seq<Matrix> := [];
    var targets: seq<real> := [];
    if |data| < len {
      return Success(Sequences(windows, targets));
    }
    var i := 0;
    while i < |data| - len
      invariant 0 <= i <= |data| - len
      invariant |windows| == |targets| == i
      invariant forall j :: 0 <= j < i ==> windows[j] == data[j..j + len]
      invariant i > 0 ==> ResolveColumn(Width(data), targetColumn).Some?
      invariant forall j :: 0 <= j < i ==> targets[j] == data[j + len][ResolveColumn(Width(data), targetColumn).value]
    {
      var c := ResolveColumn(|data[i + len]|, targetColumn);
      if c.None? {
        return Failure("IndexError");
      }
      windows := windows + [data[i..i + len]];
      targets := targets + [data[i + len][c.value]];
      i := i + 1;
    }
    if |data| > len {
      var c := ResolveColumn(Width(data), targetColumn).value;
      assert windows == seq(|data| - len, j requires 0 <= j < |data| - len => data[j..j + len]);
      assert targets == seq(|data| - len, j requires 0 <= j < |data| - len => data[j + len][c]);
    }
    r := Success(Sequences(windows, targets));
  }

  /** Shorter data than the window gives empty results, and data exactly as
      long as the window gives none either; otherwise there are
      len(data) - L windows and as many targets. */
  lemma WindowCount(data: Matrix, len: nat, targetColumn: int)
    requires Rectangular(data)
    ensures |data| <= len ==> Windows(data, len, targetColumn) == Success(Sequences([], []))
    ensures Windows(data, len, targetColumn).Success? ==>
      var s := Windows(data, len, targetColumn).value;
      |s.windows| == |s.targets| == (if |data| <= len then 0 else |data| - len)
    ensures Windows(data, len, targetColumn).Failure? <==>
      |data| > len && !(-(Width(data) as int) <= targetColumn < Width(data))
  {
  }

  /** Window i is rows i .. i+L-1 of the input, consecutive windows shift by one
      row, and target i is the target column of row i+L, the row right after
      window i: no window contains its own target. */
  lemma WindowShape(data: Matrix, len: nat, targetColumn: int, i: nat)
    requires Rectangular(data)
    requires Windows(data, len, targetColumn).Success?
    requires i < |Windows(data, len, targetColumn).value.windows|
    ensures var s := Windows(data, len, targetColumn).value;
      && |s.windows[i]| == len
      && (forall k :: 0 <= k < len ==> s.windows[i][k] == data[i + k])
      && (i + 1 < |s.windows| && len > 0 ==> s.windows[i + 1][..len - 1] == s.windows[i][1..])
      && ResolveColumn(Width(data), targetColumn).Some?
      && s.targets[i] == data[i + len][ResolveColumn(Width(data), targetColumn).value]
  {
  }
}
