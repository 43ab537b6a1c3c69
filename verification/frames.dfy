/** A row-oriented model of the pandas DataFrames the services pass around:
    an ordered list of column names and a list of rows, each row a map from
    column name to cell. A cell a row does not hold reads as `Missing`, which
    stands for pandas' NaN / None; a timestamp cell holds milliseconds since
    the Unix epoch. */
module Frames {

  datatype Val = Num(x: real) | Text(s: string) | Time(t: int) | Missing

  type Row = map<string, Val>

  datatype Table = Table(columns: seq<string>, rows: seq<Row>)

  type Matrix = seq<seq<real>>

  /** The number of columns of a numeric array (that of its first row). */
  function Width(m: Matrix): nat {
    if m == [] then 0 else |m[0]|
  }

  /** Every row has the same number of columns, as in a numpy 2-d array. */
  predicate Rectangular(m: Matrix) {
    forall i :: 0 <= i < |m| ==> |m[i]| == Width(m)
  }

  function Get(r: Row, c: string): Val {
    if c in r then r[c] else Missing
  }

  function Column(t: Table, c: string): (col: seq<Val>)
    ensures |col| == |t.rows|
    ensures forall i :: 0 <= i < |t.rows| ==> col[i] == Get(t.rows[i], c)
  {
    seq(|t.rows|, i requires 0 <= i < |t.rows| => Get(t.rows[i], c))
  }

  /** `DataFrame.empty`: no rows or no columns. */
  predicate IsEmpty(t: Table) {
    |t.rows| == 0 || |t.columns| == 0
  }

  const EmptyTable := Table([], [])

  /** The column list after `df[c] = ...`: a new name goes at the end. */
  function AddColumnName(columns: seq<string>, c: string): (r: seq<string>)
    ensures c in r && forall x :: x in columns ==> x in r
    ensures forall x :: x in r ==> x in columns || x == c
  {
    if c in columns then columns else columns + [c]
  }

  /** `df[c] = vals` for a column of the frame's length. */
  function AssignColumn(t: Table, c: string, vals: seq<Val>): (r: Table)
    requires |vals| == |t.rows|
    ensures r.columns == AddColumnName(t.columns, c) && |r.rows| == |t.rows|
    ensures forall i :: 0 <= i < |t.rows| ==> r.rows[i] == t.rows[i][c := vals[i]]
  {
    Table(AddColumnName(t.columns, c), seq(|t.rows|, i requires 0 <= i < |t.rows| => t.rows[i][c := vals[i]]))
  }

  lemma ColumnOfAssigned(t: Table, c: string, vals: seq<Val>, d: string)
    requires |vals| == |t.rows|
    ensures Column(AssignColumn(t, c, vals), d) == if d == c then vals else Column(t, d)
  {
  }

  /** Truncating the rows commutes with reading a column. */
  lemma ColumnOfPrefix(t: Table, k: nat, c: string)
    requires k <= |t.rows|
    ensures Column(Table(t.columns, t.rows[..k]), c) == Column(t, c)[..k]
  {
  }

  /** Truncating the rows commutes with assigning a column. */
  lemma AssignPrefix(t: Table, c: string, vals: seq<Val>, k: nat)
    requires |vals| == |t.rows| && k <= |t.rows|
    ensures AssignColumn(Table(t.columns, t.rows[..k]), c, vals[..k])
         == Table(AssignColumn(t, c, vals).columns, AssignColumn(t, c, vals).rows[..k])
  {
  }

  /** A row holds a value in every listed column. */
  predicate Complete(columns: seq<string>, r: Row) {
    forall c :: c in columns ==> Get(r, c) != Missing
  }

  function KeepComplete(columns: seq<string>, rows: seq<Row>): (r: seq<Row>)
    ensures |r| <= |rows|
    ensures forall i :: 0 <= i < |r| ==> r[i] in rows && Complete(columns, r[i])
  {
    if rows == [] then []
    else (if Complete(columns, rows[0]) then [rows[0]] else []) + KeepComplete(columns, rows[1..])
  }

  /** `df.dropna()`: drop every row with a missing value in any column. */
  function DropNa(t: Table): (r: Table)
    ensures r.columns == t.columns
  {
    Table(t.columns, KeepComplete(t.columns, t.rows))
  }

  /** When exactly the first k rows are incomplete, dropping them is all `dropna` does. */
  lemma {:induction false} KeepCompleteDropsPrefix(columns: seq<string>, rows: seq<Row>, k: nat)
    requires k <= |rows|
    requires forall i :: 0 <= i < k ==> !Complete(columns, rows[i])
    requires forall i :: k <= i < |rows| ==> Complete(columns, rows[i])
    ensures KeepComplete(columns, rows) == rows[k..]
  {
    if rows != [] {
      KeepCompleteDropsPrefix(columns, rows[1..], if k == 0 then 0 else k - 1);
    }
  }

  /** The column list of `pd.concat([a, b])`: a's columns, then b's new ones. */
  function UnionColumns(a: seq<string>, b: seq<string>): (r: seq<string>)
    ensures forall x :: x in r <==> x in a || x in b
    ensures |r| >= |a| && r[..|a|] == a
    decreases b
  {
    if b == [] then a else UnionColumns(AddColumnName(a, b[0]), b[1..])
  }

  /** `pd.concat([a, b], ignore_index=True)`. */
  function Concat(a: Table, b: Table): (r: Table)
    ensures r.rows == a.rows + b.rows
  {
    Table(UnionColumns(a.columns, b.columns), a.rows + b.rows)
  }

  /** The rows of `rs` whose `key` cell equals that of `l`, in order. */
  function Matching(l: Row, rs: seq<Row>, key: string): (m: seq<Row>)
    ensures |m| <= |rs|
    ensures forall x :: x in m ==> x in rs && Get(x, key) == Get(l, key)
  {
    if rs == [] then []
    else (if Get(rs[0], key) == Get(l, key) then [rs[0]] else []) + Matching(l, rs[1..], key)
  }

  function MergeEach(l: Row, ms: seq<Row>): (r: seq<Row>)
    ensures |r| == |ms| && forall i :: 0 <= i < |ms| ==> r[i] == l + ms[i]
  {
    seq(|ms|, i requires 0 <= i < |ms| => l + ms[i])
  }

  /** The rows of `pd.merge(left, right, on=key)` (inner join): every left row
      combined with each matching right row, in left order. */
  function InnerJoinRows(ls: seq<Row>, rs: seq<Row>, key: string): seq<Row> {
    if ls == [] then [] else MergeEach(ls[0], Matching(ls[0], rs, key)) + InnerJoinRows(ls[1..], rs, key)
  }

  /** The rows of `left.merge(right, on=key, how="left")`: as the inner join,
      but a left row without a match is kept alone (its right columns missing). */
  function LeftJoinRows(ls: seq<Row>, rs: seq<Row>, key: string): seq<Row> {
    if ls == [] then []
    else
      var m := Matching(ls[0], rs, key);
      (if m == [] then [ls[0]] else MergeEach(ls[0], m)) + LeftJoinRows(ls[1..], rs, key)
  }

  function Without(cs: seq<string>, key: string): (r: seq<string>)
    ensures forall x :: x in r <==> x in cs && x != key
  {
    if cs == [] then [] else (if cs[0] == key then [] else [cs[0]]) + Without(cs[1..], key)
  }

  function InnerJoin(l: Table, r: Table, key: string): Table {
    Table(l.columns + Without(r.columns, key), InnerJoinRows(l.rows, r.rows, key))
  }

  function LeftJoin(l: Table, r: Table, key: string): Table {
    Table(l.columns + Without(r.columns, key), LeftJoinRows(l.rows, r.rows, key))
  }

  /** Every row of the inner join agrees with a left row and a right row on the key. */
  lemma {:induction false} InnerJoinRowsMatch(ls: seq<Row>, rs: seq<Row>, key: string)
    ensures forall x :: x in InnerJoinRows(ls, rs, key) ==>
      exists l, r :: l in ls && r in rs && x == l + r && Get(l, key) == Get(r, key)
  {
    if ls != [] {
      InnerJoinRowsMatch(ls[1..], rs, key);
      var m := Matching(ls[0], rs, key);
      forall x | x in InnerJoinRows(ls, rs, key)
        ensures exists l, r :: l in ls && r in rs && x == l + r && Get(l, key) == Get(r, key)
      {
        if x in MergeEach(ls[0], m) {
          var i :| 0 <= i < |m| && MergeEach(ls[0], m)[i] == x;
          assert m[i] in m;
          assert ls[0] in ls && m[i] in rs && x == ls[0] + m[i];
        } else {
          assert x in InnerJoinRows(ls[1..], rs, key);
          var l, r :| l in ls[1..] && r in rs && x == l + r && Get(l, key) == Get(r, key);
          assert l in ls;
        }
      }
    }
  }

  /** A right row whose key equals the left row's is among its matches. */
  lemma {:induction false} MatchingHas(l: Row, rs: seq<Row>, key: string, r: Row)
    requires r in rs && Get(r, key) == Get(l, key)
    ensures r in Matching(l, rs, key)
  {
    if rs[0] != r {
      MatchingHas(l, rs[1..], key, r);
    }
  }

  /** Without a right row of the same key there is no match. */
  lemma {:induction false} MatchingNone(l: Row, rs: seq<Row>, key: string)
    requires forall r :: r in rs ==> Get(r, key) != Get(l, key)
    ensures Matching(l, rs, key) == []
  {
    if rs != [] {
      MatchingNone(l, rs[1..], key);
    }
  }

  /** The left join holds every left row combined with each right row of its
      key, and every left row without such a right row on its own. */
  lemma {:induction false} LeftJoinRowsCover(ls: seq<Row>, rs: seq<Row>, key: string, l: Row)
    requires l in ls
    ensures forall r :: r in rs && Get(r, key) == Get(l, key) ==> l + r in LeftJoinRows(ls, rs, key)
    ensures (forall r :: r in rs ==> Get(r, key) != Get(l, key)) ==> l in LeftJoinRows(ls, rs, key)
  {
    var m := Matching(ls[0], rs, key);
    var head := if m == [] then [ls[0]] else MergeEach(ls[0], m);
    assert LeftJoinRows(ls, rs, key) == head + LeftJoinRows(ls[1..], rs, key);
    if ls[0] == l {
      forall r | r in rs && Get(r, key) == Get(l, key)
        ensures l + r in LeftJoinRows(ls, rs, key)
      {
        MatchingHas(l, rs, key, r);
        var i :| 0 <= i < |m| && m[i] == r;
        assert head[i] == l + r;
      }
      if forall r :: r in rs ==> Get(r, key) != Get(l, key) {
        MatchingNone(l, rs, key);
        assert head[0] == l;
      }
    } else {
      LeftJoinRowsCover(ls[1..], rs, key, l);
    }
  }

  /** A left join never loses a left row: it has at least as many rows as the left side. */
  lemma {:induction false} LeftJoinKeepsRows(ls: seq<Row>, rs: seq<Row>, key: string)
    ensures |LeftJoinRows(ls, rs, key)| >= |ls|
  {
    if ls != [] {
      LeftJoinKeepsRows(ls[1..], rs, key);
    }
  }
}
