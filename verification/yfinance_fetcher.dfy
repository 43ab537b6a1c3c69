/** `YFinanceFetcher`: daily prices of a ticker, one calendar month at a time,
    downloaded in chunks of at most 30 days and cached per month on the local
    disk, except for the month that is still running. The clock (`now`, a
    naive local datetime) and the Yahoo download are parameters. A table's
    index is held as its "Date" column. */
module YFinance {
  import opened Wrappers
  import opened Frames
  import opened Artifacts
  import opened Storage
  import Strings
  import Dates
  import DateHelper

  /** A naive datetime: a date and the seconds since its midnight. */
  datatype Instant = Instant(date: Dates.Date, secs: int)

  predicate ValidInstant(t: Instant) {
    Dates.Valid(t.date) && 0 <= t.secs < 86400
  }

  /** Seconds since 0001-01-01 00:00, the order of datetimes. */
  function Seconds(t: Instant): int
    requires ValidInstant(t)
  {
    Dates.DayNumber(t.date) * 86400 + t.secs
  }

  /** `min(a, b)`: the first argument unless the second is strictly earlier. */
  function MinInstant(a: Instant, b: Instant): (r: Instant)
    requires ValidInstant(a) && ValidInstant(b)
    ensures ValidInstant(r) && (r == a || r == b)
    ensures Seconds(r) <= Seconds(a) && Seconds(r) <= Seconds(b)
  {
    if Seconds(b) < Seconds(a) then b else a
  }

  const ChunkDays := 30
  const ChunkSeconds := ChunkDays * 86400
  const IndexColumn := "Date"

  /** `os.path.join(dir, name)` for a relative name. */
  function PathJoin(dir: string, name: string): string {
    if dir == [] || Strings.EndsWith(dir, "/") then dir + name else dir + "/" + name
  }

  /** `f"{month:02d}"`: two digits with a leading zero; a negative number
      keeps its sign. */
  function TwoDigits(m: int): string {
    if m >= 0 then Strings.ZeroPad(m, 2) else Strings.IntToString(m)
  }

  /** The cache file name of a month. */
  function CacheName(symbol: string, year: int, month: int): string {
    (symbol + "_" + Strings.IntToString(year)) + ("_" + TwoDigits(month) + ".csv")
  }

  /** `_get_cache_path`. */
  function CachePath(dir: string, symbol: string, year: int, month: int): string {
    PathJoin(dir, CacheName(symbol, year, month))
  }

  lemma EndsOfConcat(x: string, y: string)
    ensures Strings.EndsWith(x + y, y)
  {
    assert (x + y)[|x + y| - |y|..] == y;
  }

  /** Joining a directory keeps the name's ending. */
  lemma PathJoinEnds(dir: string, name: string, q: string)
    requires Strings.EndsWith(name, q)
    ensures Strings.EndsWith(PathJoin(dir, name), q)
  {
    if dir == [] || Strings.EndsWith(dir, "/") {
      Strings.SuffixOfJoin(dir, name, q);
    } else {
      Strings.SuffixOfJoin(dir + "/", name, q);
    }
  }

  /** The path ends in the month written with two digits and ".csv". */
  lemma CachePathShape(dir: string, symbol: string, year: int, month: int)
    requires 1 <= month <= 12
    ensures |TwoDigits(month)| == 2 && Strings.IsDigits(TwoDigits(month))
    ensures Strings.EndsWith(CachePath(dir, symbol, year, month), "_" + TwoDigits(month) + ".csv")
  {
    var tail := "_" + TwoDigits(month) + ".csv";
    EndsOfConcat(symbol + "_" + Strings.IntToString(year), tail);
    PathJoinEnds(dir, CacheName(symbol, year, month), tail);
  }

  /** The month `i` months before today's, as `fetch_last_n_months` computes
      it with floor division and remainder. */
  function MonthBack(today: Dates.Date, i: int): (ym: (int, int)) {
    (today.year - (i + 12 - today.month) / 12, (today.month - i - 1) % 12 + 1)
  }

  /** The month is a calendar month, exactly i months before today's. */
  lemma MonthBackSpec(today: Dates.Date, i: int)
    requires 1 <= today.month <= 12
    ensures 1 <= MonthBack(today, i).1 <= 12
    ensures MonthBack(today, i).0 * 12 + MonthBack(today, i).1 - 1 == today.year * 12 + today.month - 1 - i
  {
    var t := today.month - 1 - i;
    var q := t / 12;
    assert t == 12 * q + t % 12;
    assert i + 12 - today.month == 12 * (-q) + (11 - t % 12);
    assert (i + 12 - today.month) / 12 == -q;
  }

  /** The month of `datetime(year, month, 1)` up to the first of the next
      month, cut off at now; a month that does not exist raises. */
  function MonthRange(year: int, month: int, now: Instant): (r: Result<(Instant, Instant)>)
    requires ValidInstant(now)
    ensures r.Success? <==> 1 <= year && 1 <= month <= 12
    ensures r.Success? ==> ValidInstant(r.value.0) && ValidInstant(r.value.1)
  {
    if !(1 <= year && 1 <= month <= 12) then Failure("ValueError: month must be in 1..12")
    else
      var next := if month == 12 then Dates.Date(year + 1, 1, 1) else Dates.Date(year, month + 1, 1);
      Success((Instant(Dates.Date(year, month, 1), 0), MinInstant(Instant(next, 0), now)))
  }

  /** The range starts at midnight of the month's first day and ends at the
      first of the following month (December wrapping into January), or at
      now when that is earlier. */
  lemma MonthRangeIsTheMonth(year: int, month: int, now: Instant)
    requires ValidInstant(now) && 1 <= year && 1 <= month <= 12
    ensures var first := Dates.Date(year, month, 1);
      && MonthRange(year, month, now).value.0 == Instant(DateHelper.FirstDayOfMonth(first), 0)
      && MonthRange(year, month, now).value.1 == MinInstant(Instant(DateHelper.FirstDayOfNextMonth(first), 0), now)
  {
  }

  /** The chunks of the download loop: from `start`, steps of 30 days, the
      last one cut off at `end`. */
  function Chunks(start: Instant, end: Instant): (cs: seq<(Instant, Instant)>)
    requires ValidInstant(start) && ValidInstant(end)
    ensures ValidChunks(cs)
    decreases Seconds(end) - Seconds(start)
  {
    if Seconds(start) >= Seconds(end) then []
    else
      var chunkEnd := ChunkEnd(start, end);
      [(start, chunkEnd)] + Chunks(chunkEnd, end)
  }

  /** `min(chunk_start + timedelta(days=30), end_date)`; before the end it
      moves forward. */
  function ChunkEnd(start: Instant, end: Instant): (r: Instant)
    requires ValidInstant(start) && ValidInstant(end)
    ensures ValidInstant(r)
    ensures Seconds(r) <= Seconds(end) && Seconds(r) <= Seconds(start) + ChunkSeconds
    ensures Seconds(r) == Seconds(end) || Seconds(r) == Seconds(start) + ChunkSeconds
    ensures Seconds(start) < Seconds(end) ==> Seconds(start) < Seconds(r)
  {
    Dates.AddDaysNumber(start.date, ChunkDays);
    MinInstant(Instant(Dates.AddDays(start.date, ChunkDays), start.secs), end)
  }

  /** The chunks are contiguous, each lasts more than nothing and at most 30
      days, they start at `start` and end at `end`; there are none exactly
      when the range is empty. */
  lemma {:induction false} ChunksSpec(start: Instant, end: Instant)
    requires ValidInstant(start) && ValidInstant(end)
    ensures Chunks(start, end) == [] <==> Seconds(start) >= Seconds(end)
    ensures Chunks(start, end) != [] ==>
      Chunks(start, end)[0].0 == start && Seconds(Chunks(start, end)[|Chunks(start, end)| - 1].1) == Seconds(end)
    ensures forall i :: 0 <= i < |Chunks(start, end)| - 1 ==> Chunks(start, end)[i].1 == Chunks(start, end)[i + 1].0
    ensures forall i :: 0 <= i < |Chunks(start, end)| ==>
      0 < Seconds(Chunks(start, end)[i].1) - Seconds(Chunks(start, end)[i].0) <= ChunkSeconds
    decreases Seconds(end) - Seconds(start)
  {
    if Seconds(start) < Seconds(end) {
      var chunkEnd := ChunkEnd(start, end);
      ChunksSpec(chunkEnd, end);
      var rest := Chunks(chunkEnd, end);
      assert Chunks(start, end) == [(start, chunkEnd)] + rest;
      if rest == [] {
        assert Seconds(chunkEnd) >= Seconds(end);
      }
    }
  }

  /** `ticker.history(start=..., end=..., interval="1d")` for a symbol and
      two "YYYY-MM-DD" dates. */
  type History = (string, string, string) -> Table

  predicate ValidChunks(cs: seq<(Instant, Instant)>) {
    forall i :: 0 <= i < |cs| ==> ValidInstant(cs[i].0) && ValidInstant(cs[i].1)
  }

  /** The request for one chunk: its bounds rendered as dates. */
  function Request(history: History, symbol: string, c: (Instant, Instant)): Table
    requires ValidInstant(c.0) && ValidInstant(c.1)
  {
    history(symbol, Dates.Format(c.0.date), Dates.Format(c.1.date))
  }

  /** The table of each chunk, in chunk order. */
  function Downloads(history: History, symbol: string, cs: seq<(Instant, Instant)>): (ts: seq<Table>)
    requires ValidChunks(cs)
    ensures |ts| == |cs|
    ensures forall i :: 0 <= i < |cs| ==> ts[i] == Request(history, symbol, cs[i])
  {
    seq(|cs|, i requires 0 <= i < |cs| => Request(history, symbol, cs[i]))
  }

  /** `pd.concat(tables)` of a non-empty list. */
  function ConcatAll(ts: seq<Table>): (t: Table)
    decreases |ts|
  {
    if ts == [] then EmptyTable else Concat(ConcatAll(ts[..|ts| - 1]), ts[|ts| - 1])
  }

  function IndexOf(r: Row): Val {
    Get(r, IndexColumn)
  }

  function IndexValues(rows: seq<Row>): set<Val> {
    set r | r in rows :: IndexOf(r)
  }

  /** `df[~df.index.duplicated()]`: each row whose index value appeared in
      an earlier row is dropped. */
  function KeepFirst(rows: seq<Row>): seq<Row>
    decreases |rows|
  {
    if rows == [] then []
    else
      var front := rows[..|rows| - 1];
      var last := rows[|rows| - 1];
      if IndexOf(last) in IndexValues(front) then KeepFirst(front) else KeepFirst(front) + [last]
  }

  /** What is kept are rows of the input with pairwise distinct index values,
      the first row of every index value among them; no index value is lost. */
  lemma KeepFirstSpec(rows: seq<Row>)
    ensures forall r :: r in KeepFirst(rows) ==> r in rows
    ensures forall i, j :: 0 <= i < j < |KeepFirst(rows)| ==> IndexOf(KeepFirst(rows)[i]) != IndexOf(KeepFirst(rows)[j])
    ensures IndexValues(KeepFirst(rows)) == IndexValues(rows)
    ensures forall i :: 0 <= i < |rows| && IndexOf(rows[i]) !in IndexValues(rows[..i]) ==> rows[i] in KeepFirst(rows)
  {
    KeepFirstDistinct(rows);
    KeepFirstIndexValues(rows);
    KeepFirstKeepsFirsts(rows);
  }

  /** The first row, the front rows and the last row of an unfolding. */
  lemma UnfoldLast(rows: seq<Row>)
    requires rows != []
    ensures rows == rows[..|rows| - 1] + [rows[|rows| - 1]]
    ensures IndexValues(rows) == IndexValues(rows[..|rows| - 1]) + {IndexOf(rows[|rows| - 1])}
  {
    assert rows == rows[..|rows| - 1] + [rows[|rows| - 1]];
  }

  lemma {:induction false} KeepFirstSubset(rows: seq<Row>)
    ensures forall r :: r in KeepFirst(rows) ==> r in rows
    decreases |rows|
  {
    if rows != [] {
      KeepFirstSubset(rows[..|rows| - 1]);
      UnfoldLast(rows);
    }
  }

  lemma {:induction false} KeepFirstDistinct(rows: seq<Row>)
    ensures forall r :: r in KeepFirst(rows) ==> r in rows
    ensures forall i, j :: 0 <= i < j < |KeepFirst(rows)| ==> IndexOf(KeepFirst(rows)[i]) != IndexOf(KeepFirst(rows)[j])
    decreases |rows|
  {
    KeepFirstSubset(rows);
    if rows != [] {
      var front := rows[..|rows| - 1];
      var last := rows[|rows| - 1];
      KeepFirstDistinct(front);
      if IndexOf(last) !in IndexValues(front) {
        var k := KeepFirst(rows);
        assert k == KeepFirst(front) + [last];
        forall i, j | 0 <= i < j < |k|
          ensures IndexOf(k[i]) != IndexOf(k[j])
        {
          if j == |k| - 1 {
            assert k[i] in KeepFirst(front);
            assert k[i] in front;
          }
        }
      }
    }
  }

  lemma {:induction false} KeepFirstIndexValues(rows: seq<Row>)
    ensures IndexValues(KeepFirst(rows)) == IndexValues(rows)
    decreases |rows|
  {
    if rows != [] {
      var front := rows[..|rows| - 1];
      var last := rows[|rows| - 1];
      KeepFirstIndexValues(front);
      UnfoldLast(rows);
      if IndexOf(last) !in IndexValues(front) {
        assert KeepFirst(rows) == KeepFirst(front) + [last];
        UnfoldLast(KeepFirst(rows));
      }
    }
  }

  lemma {:induction false} KeepFirstKeepsFirsts(rows: seq<Row>)
    ensures forall i :: 0 <= i < |rows| && IndexOf(rows[i]) !in IndexValues(rows[..i]) ==> rows[i] in KeepFirst(rows)
    decreases |rows|
  {
    if rows != [] {
      var front := rows[..|rows| - 1];
      var last := rows[|rows| - 1];
      KeepFirstKeepsFirsts(front);
      forall i | 0 <= i < |rows| && IndexOf(rows[i]) !in IndexValues(rows[..i])
        ensures rows[i] in KeepFirst(rows)
      {
        if i < |rows| - 1 {
          assert rows[..i] == front[..i];
          assert front[i] == rows[i];
        } else {
          assert rows[..i] == front;
        }
      }
    }
  }

  function KeepFirstByIndex(t: Table): Table {
    Table(t.columns, KeepFirst(t.rows))
  }

  /** The result of `fetch_month` on a disk, paired with the disk after. A
      cached file answers for any month but the running one; otherwise the
      month's chunks are downloaded, joined without repeated dates, and the
      result cached unless the month is still running. */
  function MonthFetch(files: map<string, Blob>, dir: string, history: History, symbol: string,
                      year: int, month: int, now: Instant): (r: (Result<Table>, map<string, Blob>))
    requires ValidInstant(now)
  {
    var isCurrent := now.date.year == year && now.date.month == month;
    var path := CachePath(dir, symbol, year, month);
    if !isCurrent && path in files then (Success(TableAt(files, path)), files)
    else
      match MonthDownload(history, symbol, year, month, now)
      case Failure(e) => (Failure(e), files)
      case Success(full) => (Success(full), if isCurrent then files else files[path := TableFile(full)])
  }

  /** The download part of `fetch_month`: the chunks of the month, joined
      without repeated dates; a month that does not exist, or has not begun,
      raises. */
  function MonthDownload(history: History, symbol: string, year: int, month: int, now: Instant): Result<Table>
    requires ValidInstant(now)
  {
    match MonthRange(year, month, now)
    case Failure(e) => Failure(e)
    case Success(range) =>
      var dfs := Downloads(history, symbol, Chunks(range.0, range.1));
      if dfs == [] then Failure("ValueError: No objects to concatenate")
      else Success(KeepFirstByIndex(ConcatAll(dfs)))
  }

  /** The running month never touches the cache: the disk is unchanged and
      the result does not depend on what the disk holds. */
  lemma CurrentMonthBypassesCache(files: map<string, Blob>, other: map<string, Blob>, dir: string, history: History,
                                  symbol: string, now: Instant)
    requires ValidInstant(now)
    ensures MonthFetch(files, dir, history, symbol, now.date.year, now.date.month, now).1 == files
    ensures MonthFetch(files, dir, history, symbol, now.date.year, now.date.month, now).0
         == MonthFetch(other, dir, history, symbol, now.date.year, now.date.month, now).0
  {
  }

  /** A past month is fetched at most once: a successful fetch leaves its
      result under the month's path and every other file as it was, and
      asking again answers from the cache with the same table. */
  lemma PastMonthIsCached(files: map<string, Blob>, dir: string, history: History,
                          symbol: string, year: int, month: int, now: Instant)
    requires ValidInstant(now) && !(now.date.year == year && now.date.month == month)
    requires MonthFetch(files, dir, history, symbol, year, month, now).0.Success?
    ensures var r := MonthFetch(files, dir, history, symbol, year, month, now);
      && CachePath(dir, symbol, year, month) in r.1
      && (forall k :: k != CachePath(dir, symbol, year, month) ==> (k in r.1 <==> k in files) && (k in files ==> r.1[k] == files[k]))
      && MonthFetch(r.1, dir, history, symbol, year, month, now) == r
  {
    var path := CachePath(dir, symbol, year, month);
    var r := MonthFetch(files, dir, history, symbol, year, month, now);
    if path !in files {
      var full := MonthDownload(history, symbol, year, month, now).value;
      assert r == (Success(full), files[path := TableFile(full)]);
      assert TableAt(r.1, path) == full;
    }
  }

  /** A downloaded month has no repeated date. */
  lemma MonthDatesDistinct(history: History, symbol: string, year: int, month: int, now: Instant)
    requires ValidInstant(now)
    requires MonthDownload(history, symbol, year, month, now).Success?
    ensures DistinctIndex(MonthDownload(history, symbol, year, month, now).value.rows)
  {
    var range := MonthRange(year, month, now).value;
    KeepFirstSpec(ConcatAll(Downloads(history, symbol, Chunks(range.0, range.1))).rows);
  }

  predicate DistinctIndex(rows: seq<Row>) {
    forall i, j :: 0 <= i < j < |rows| ==> IndexOf(rows[i]) != IndexOf(rows[j])
  }

  /** The index value as a number of milliseconds; a cell that is not a
      timestamp sorts as 0. */
  function IndexKey(r: Row): int {
    if IndexOf(r).Time? then IndexOf(r).t else 0
  }

  predicate SortedByIndex(rows: seq<Row>) {
    forall i, j :: 0 <= i < j < |rows| ==> IndexKey(rows[i]) <= IndexKey(rows[j])
  }

  function Insert(x: Row, rows: seq<Row>): (r: seq<Row>)
    ensures multiset(r) == multiset(rows) + multiset{x}
  {
    if rows == [] then [x]
    else if IndexKey(x) <= IndexKey(rows[0]) then [x] + rows
    else
      assert rows == [rows[0]] + rows[1..];
      [rows[0]] + Insert(x, rows[1..])
  }

  /** Rows with equal multisets hold the same index values. */
  lemma SameIndexValues(a: seq<Row>, b: seq<Row>)
    requires multiset(a) == multiset(b)
    ensures IndexValues(a) == IndexValues(b)
  {
    forall r | r in a ensures r in b {
      assert r in multiset(a);
    }
    forall r | r in b ensures r in a {
      assert r in multiset(b);
    }
  }

  /** Distinct index values, read from the front: the head's value does not
      recur and the tail is distinct. */
  lemma DistinctCons(x: Row, rows: seq<Row>)
    ensures DistinctIndex([x] + rows) <==> IndexOf(x) !in IndexValues(rows) && DistinctIndex(rows)
  {
    var s := [x] + rows;
    if IndexOf(x) !in IndexValues(rows) && DistinctIndex(rows) {
      forall i, j | 0 <= i < j < |s|
        ensures IndexOf(s[i]) != IndexOf(s[j])
      {
        if i == 0 {
          assert s[j] == rows[j - 1];
        } else {
          assert s[i] == rows[i - 1] && s[j] == rows[j - 1];
        }
      }
    }
    if DistinctIndex(s) {
      forall r | r in rows
        ensures IndexOf(r) != IndexOf(x)
      {
        var j :| 0 <= j < |rows| && rows[j] == r;
        assert s[0] == x && s[j + 1] == r;
      }
      forall i, j | 0 <= i < j < |rows|
        ensures IndexOf(rows[i]) != IndexOf(rows[j])
      {
        assert s[i + 1] == rows[i] && s[j + 1] == rows[j];
      }
    }
  }

  lemma {:induction false} InsertSorted(x: Row, rows: seq<Row>)
    requires SortedByIndex(rows)
    ensures SortedByIndex(Insert(x, rows))
  {
    if rows != [] && IndexKey(x) > IndexKey(rows[0]) {
      var rest := rows[1..];
      InsertSorted(x, rest);
      var r := Insert(x, rows);
      assert r == [rows[0]] + Insert(x, rest);
      forall j | 0 < j < |r|
        ensures IndexKey(rows[0]) <= IndexKey(r[j])
      {
        assert r[j] in multiset(Insert(x, rest));
        assert r[j] in multiset(rest) + multiset{x};
        if r[j] != x {
          assert r[j] in rest;
        }
      }
    }
  }

  lemma {:induction false} InsertDistinct(x: Row, rows: seq<Row>)
    requires DistinctIndex(rows) && IndexOf(x) !in IndexValues(rows)
    ensures DistinctIndex(Insert(x, rows))
  {
    if rows == [] {
    } else if IndexKey(x) <= IndexKey(rows[0]) {
      assert Insert(x, rows) == [x] + rows;
      DistinctCons(x, rows);
    } else {
      var rest := rows[1..];
      assert rows == [rows[0]] + rest;
      DistinctCons(rows[0], rest);
      assert IndexValues(rest) <= IndexValues(rows);
      InsertDistinct(x, rest);
      SameIndexValues(Insert(x, rest), rest + [x]);
      assert IndexValues(rest + [x]) == IndexValues(rest) + {IndexOf(x)};
      assert Insert(x, rows) == [rows[0]] + Insert(x, rest);
      DistinctCons(rows[0], Insert(x, rest));
    }
  }

  /** `sort_index()`. */
  function SortByIndex(rows: seq<Row>): (r: seq<Row>)
    ensures multiset(r) == multiset(rows)
  {
    if rows == [] then []
    else
      assert rows == [rows[0]] + rows[1..];
      Insert(rows[0], SortByIndex(rows[1..]))
  }

  /** The sorted rows are in index order, and distinct index values stay
      distinct. */
  lemma {:induction false} SortByIndexSpec(rows: seq<Row>)
    ensures SortedByIndex(SortByIndex(rows))
    ensures DistinctIndex(rows) ==> DistinctIndex(SortByIndex(rows))
  {
    if rows != [] {
      var rest := rows[1..];
      assert rows == [rows[0]] + rest;
      SortByIndexSpec(rest);
      DistinctCons(rows[0], rest);
      SameIndexValues(SortByIndex(rest), rest);
      InsertSorted(rows[0], SortByIndex(rest));
      if DistinctIndex(rows) {
        InsertDistinct(rows[0], SortByIndex(rest));
      }
    }
  }

  /** One entry of `rename(columns=...)` applied to a row. */
  function Move(r: Row, a: string, b: string): Row {
    if a in r then (r - {a})[b := r[a]] else r
  }

  function RenameName(c: string): string {
    if c == "Date" then "timestamp"
    else if c == "Open" then "open"
    else if c == "High" then "high"
    else if c == "Low" then "low"
    else if c == "Close" then "close"
    else if c == "Volume" then "volume"
    else c
  }

  function RenameRow(r: Row): Row {
    Move(Move(Move(Move(Move(Move(r, "Date", "timestamp"), "Open", "open"), "High", "high"),
      "Low", "low"), "Close", "close"), "Volume", "volume")
  }

  /** `reset_index()` and the two renames: the date column comes first and is
      called "timestamp", the price columns get lower-case names; a row's
      date becomes its timestamp cell. */
  function Finish(t: Table): (r: Table)
    ensures |r.rows| == |t.rows|
    ensures forall i :: 0 <= i < |t.rows| && IndexColumn in t.rows[i] ==> Get(r.rows[i], "timestamp") == IndexOf(t.rows[i])
  {
    var columns := [IndexColumn] + Without(t.columns, IndexColumn);
    Table(seq(|columns|, i requires 0 <= i < |columns| => RenameName(columns[i])),
      seq(|t.rows|, i requires 0 <= i < |t.rows| => RenameRow(t.rows[i])))
  }

  /** One month's fetch as a step over the disk. */
  type MonthStep = (map<string, Blob>, int, int) -> (Result<Table>, map<string, Blob>)

  /** The months before today fetched in turn with `fetch`, paired with the
      disk after; the first month that raises stops the loop. */
  function MonthsFetch(files: map<string, Blob>, fetch: MonthStep, today: Dates.Date, k: nat): (r: (Result<seq<Table>>, map<string, Blob>))
    ensures r.0.Success? ==> |r.0.value| == k
  {
    if k == 0 then (Success([]), files)
    else
      var p := MonthsFetch(files, fetch, today, k - 1);
      if p.0.Failure? then p
      else
        var ym := MonthBack(today, k - 1);
        var f := fetch(p.1, ym.0, ym.1);
        if f.0.Failure? then (Failure(f.0.error), f.1) else (Success(p.0.value + [f.0.value]), f.1)
  }

  /** Once a month has raised, asking for more months raises the same way and
      touches nothing more. */
  lemma {:induction false} MonthsFailureSticks(files: map<string, Blob>, fetch: MonthStep, today: Dates.Date, k: nat, m: nat)
    requires k <= m
    requires MonthsFetch(files, fetch, today, k).0.Failure?
    ensures MonthsFetch(files, fetch, today, m) == MonthsFetch(files, fetch, today, k)
    decreases m
  {
    if k < m {
      MonthsFailureSticks(files, fetch, today, k, m - 1);
    }
  }

  /** The months are fetched newest first: month j of a successful run is the
      one j months before today's. */
  lemma {:induction false} MonthsInOrder(files: map<string, Blob>, fetch: MonthStep, today: Dates.Date, k: nat, j: nat)
    requires j < k
    requires MonthsFetch(files, fetch, today, k).0.Success?
    ensures var p := MonthsFetch(files, fetch, today, j);
      && p.0.Success?
      && fetch(p.1, MonthBack(today, j).0, MonthBack(today, j).1).0.Success?
      && MonthsFetch(files, fetch, today, k).0.value[j] == fetch(p.1, MonthBack(today, j).0, MonthBack(today, j).1).0.value
    decreases k
  {
    if j < k - 1 {
      MonthsInOrder(files, fetch, today, k - 1, j);
    }
  }

  function MonthFetcher(dir: string, history: History, symbol: string, now: Instant): MonthStep
    requires ValidInstant(now)
  {
    (files: map<string, Blob>, year: int, month: int) => MonthFetch(files, dir, history, symbol, year, month, now)
  }

  /** `range(n)` has no element for a negative n. */
  function MonthCount(n: int): nat {
    if n < 0 then 0 else n
  }

  /** The joined months: repeated dates dropped, then sorted by date. */
  function JoinMonths(dfs: seq<Table>): Table {
    Table(ConcatAll(dfs).columns, SortByIndex(KeepFirst(ConcatAll(dfs).rows)))
  }

  /** `fetch_last_n_months`: the months joined, repeated dates dropped, sorted
      by date and renamed; no month at all raises. */
  function LastMonthsFetch(files: map<string, Blob>, dir: string, history: History, symbol: string,
                           n: int, now: Instant): (Result<Table>, map<string, Blob>)
    requires ValidInstant(now)
  {
    var p := MonthsFetch(files, MonthFetcher(dir, history, symbol, now), now.date, MonthCount(n));
    match p.0
    case Failure(e) => (Failure(e), p.1)
    case Success(dfs) =>
      if dfs == [] then (Failure("ValueError: No objects to concatenate"), p.1)
      else (Success(Finish(JoinMonths(dfs))), p.1)
  }

  /** The joined result is in date order without a repeated date, and every
      date of every month is in it. */
  lemma JoinMonthsSpec(dfs: seq<Table>)
    ensures SortedByIndex(JoinMonths(dfs).rows)
    ensures DistinctIndex(JoinMonths(dfs).rows)
    ensures IndexValues(JoinMonths(dfs).rows) == IndexValues(ConcatAll(dfs).rows)
  {
    var kept := KeepFirst(ConcatAll(dfs).rows);
    KeepFirstSpec(ConcatAll(dfs).rows);
    SortByIndexSpec(kept);
    SameIndexValues(SortByIndex(kept), kept);
  }

  /** One turn of the download loop keeps its invariant. */
  lemma ChunkStep(start: Instant, end: Instant, done: seq<(Instant, Instant)>, chunkStart: Instant)
    requires ValidInstant(start) && ValidInstant(end) && ValidInstant(chunkStart)
    requires Seconds(chunkStart) < Seconds(end)
    requires Chunks(start, end) == done + Chunks(chunkStart, end)
    ensures Chunks(start, end) == (done + [(chunkStart, ChunkEnd(chunkStart, end))]) + Chunks(ChunkEnd(chunkStart, end), end)
  {
    var c := (chunkStart, ChunkEnd(chunkStart, end));
    assert Chunks(chunkStart, end) == [c] + Chunks(c.1, end);
    assert done + ([c] + Chunks(c.1, end)) == (done + [c]) + Chunks(c.1, end);
  }

  lemma DownloadsAppend(history: History, symbol: string, cs: seq<(Instant, Instant)>, c: (Instant, Instant))
    requires ValidChunks(cs) && ValidInstant(c.0) && ValidInstant(c.1)
    ensures ValidChunks(cs + [c])
    ensures Downloads(history, symbol, cs + [c]) == Downloads(history, symbol, cs) + [Request(history, symbol, c)]
  {
    var ds := cs + [c];
    assert forall i :: 0 <= i < |cs| ==> ds[i] == cs[i];
    assert ds[|cs|] == c;
    var a := Downloads(history, symbol, ds);
    var front := Downloads(history, symbol, cs);
    var b := front + [Request(history, symbol, c)];
    forall i | 0 <= i < |cs| ensures a[i] == b[i] {
      assert a[i] == Request(history, symbol, cs[i]) == front[i];
    }
    assert a[|cs|] == b[|cs|];
  }

  /** The step function applied is one month's fetch. */
  lemma MonthFetcherApplies(dir: string, history: History, symbol: string, now: Instant,
                            files: map<string, Blob>, year: int, month: int)
    requires ValidInstant(now)
    ensures MonthFetcher(dir, history, symbol, now)(files, year, month) == MonthFetch(files, dir, history, symbol, year, month, now)
  {
  }

  /** One more month: its frame is appended, or its error ends the fetch. */
  lemma MonthsStep(files: map<string, Blob>, fetch: MonthStep, today: Dates.Date, i: nat, dfs: seq<Table>,
                   mid: map<string, Blob>, df: Result<Table>, after: map<string, Blob>)
    requires MonthsFetch(files, fetch, today, i) == (Success(dfs), mid)
    requires fetch(mid, MonthBack(today, i).0, MonthBack(today, i).1) == (df, after)
    ensures df.Success? ==> MonthsFetch(files, fetch, today, i + 1) == (Success(dfs + [df.value]), after)
    ensures df.Failure? ==> MonthsFetch(files, fetch, today, i + 1) == (Failure(df.error), after)
  {
  }

  /** What `fetch_last_n_months` returns once the months are fetched. */
  lemma LastMonthsFromLoop(files: map<string, Blob>, dir: string, history: History, symbol: string, n: int, now: Instant)
    requires ValidInstant(now)
    ensures var p := MonthsFetch(files, MonthFetcher(dir, history, symbol, now), now.date, MonthCount(n));
      && (p.0.Failure? ==> LastMonthsFetch(files, dir, history, symbol, n, now) == (Failure(p.0.error), p.1))
      && (p.0.Success? && p.0.value == [] ==>
            LastMonthsFetch(files, dir, history, symbol, n, now) == (Failure("ValueError: No objects to concatenate"), p.1))
      && (p.0.Success? && p.0.value != [] ==>
            LastMonthsFetch(files, dir, history, symbol, n, now) == (Success(Finish(JoinMonths(p.0.value))), p.1))
  {
  }

  class YFinanceFetcher {
    const cacheDir: string
    const disk: LocalDisk
    const history: History

    constructor(cacheDir: string, disk: LocalDisk, history: History)
      ensures this.cacheDir == cacheDir && this.disk == disk && this.history == history
    {
      this.cacheDir := cacheDir;
      this.disk := disk;
      this.history := history;
    }

    /** `fetch_month`. */
    method FetchMonth(symbol: string, year: int, month: int, now: Instant) returns (r: Result<Table>)
      requires ValidInstant(now)
      modifies disk
      ensures (r, disk.files) == MonthFetch(old(disk.files), cacheDir, history, symbol, year, month, now)
    {
      var isCurrent := now.date.year == year && now.date.month == month;
      var path := CachePath(cacheDir, symbol, year, month);
      if !isCurrent && path in disk.files {
        return Success(TableAt(disk.files, path));
      }
      r := DownloadMonth(symbol, year, month, now);
      if r.Success? && !isCurrent {
        disk.files := disk.files[path := TableFile(r.value)];
      }
    }

    /** The download loop of `fetch_month`: one request per chunk. */
    method DownloadMonth(symbol: string, year: int, month: int, now: Instant) returns (r: Result<Table>)
      requires ValidInstant(now)
      ensures r == MonthDownload(history, symbol, year, month, now)
    {
      var range := MonthRange(year, month, now);
      if range.Failure? {
        return Failure(range.error);
      }
      var (start, end) := range.value;
      var chunkStart := start;
      var dfs: seq<Table> := [];
      ghost var done: seq<(Instant, Instant)> := [];
      while Seconds(chunkStart) < Seconds(end)
        invariant ValidInstant(chunkStart) && ValidChunks(done)
        invariant Chunks(start, end) == done + Chunks(chunkStart, end)
        invariant dfs == Downloads(history, symbol, done)
        decreases Seconds(end) - Seconds(chunkStart)
      {
        var chunkEnd := ChunkEnd(chunkStart, end);
        ChunkStep(start, end, done, chunkStart);
        DownloadsAppend(history, symbol, done, (chunkStart, chunkEnd));
        dfs := dfs + [Request(history, symbol, (chunkStart, chunkEnd))];
        done := done + [(chunkStart, chunkEnd)];
        chunkStart := chunkEnd;
      }
      assert Chunks(chunkStart, end) == [];
      assert dfs == Downloads(history, symbol, Chunks(start, end));
      if dfs == [] {
        return Failure("ValueError: No objects to concatenate");
      }
      r := Success(KeepFirstByIndex(ConcatAll(dfs)));
    }

    /** `fetch_last_n_months`. */
    method FetchLastNMonths(symbol: string, n: int, now: Instant) returns (r: Result<Table>)
      requires ValidInstant(now)
      modifies disk
      ensures (r, disk.files) == LastMonthsFetch(old(disk.files), cacheDir, history, symbol, n, now)
    {
      ghost var fetch := MonthFetcher(cacheDir, history, symbol, now);
      var dfs: seq<Table> := [];
      var i := 0;
      var count := MonthCount(n);
      while i < count
        invariant 0 <= i <= count
        invariant MonthsFetch(old(disk.files), fetch, now.date, i) == (Success(dfs), disk.files)
      {
        var ym := MonthBack(now.date, i);
        ghost var before := disk.files;
        var df := FetchMonth(symbol, ym.0, ym.1, now);
        MonthFetcherApplies(cacheDir, history, symbol, now, before, ym.0, ym.1);
        MonthsStep(old(disk.files), fetch, now.date, i, dfs, before, df, disk.files);
        if df.Failure? {
          MonthsFailureSticks(old(disk.files), fetch, now.date, i + 1, count);
          LastMonthsFromLoop(old(disk.files), cacheDir, history, symbol, n, now);
          return Failure(df.error);
        }
        dfs := dfs + [df.value];
        i := i + 1;
      }
      LastMonthsFromLoop(old(disk.files), cacheDir, history, symbol, n, now);
      if dfs == [] {
        return Failure("ValueError: No objects to concatenate");
      }
      r := Success(Finish(JoinMonths(dfs)));
    }
  }
}
