/** `CryptoTrainingDataset`: the training data of the models. One 15-minute
    candle file per market and day is cached in the object store under the
    historical folder; the days from the start date up to (not including)
    the end date are concatenated per market, the columns of each market are
    suffixed with its symbol, and the markets are joined on the timestamp.
    The joined table is itself cached under `training_datasets/`. */
module CryptoDataset {
  import opened Wrappers
  import opened Frames
  import Strings
  import Dates
  import opened Artifacts
  import opened Storage
  import BinanceFetching

  const Markets: seq<string> := ["VITE/USDT", "BTC/USDT"]
  const IntervalMin := 15
  const DefaultPeriodMonths := 3
  const TimestampColumn := "timestamp"

  /** The symbol as it appears in keys and column names: "BTC/USDT" becomes "BTC_USDT". */
  function SymbolTag(symbol: string): (r: string)
    ensures |r| == |symbol| && '/' !in r
  {
    Strings.ReplaceChar(symbol, '/', '_')
  }

  const MarketTags: seq<string> := [SymbolTag(Markets[0]), SymbolTag(Markets[1])]

  /** The folder of one market's daily files: `{hist}/{tag}/daily_{n}m/`. */
  function HistoricalFolder(hist: string, symbol: string, timeframe: int): string {
    hist + "/" + SymbolTag(symbol) + "/daily_" + Strings.IntToString(timeframe) + "m/"
  }

  /** The start of a day's file name: `{tag}_daily_{n}m_`. */
  function DayFilePrefix(symbol: string, timeframe: int): string {
    SymbolTag(symbol) + "_daily_" + Strings.IntToString(timeframe) + "m_"
  }

  /** `historical_data_path`: `{hist}/{tag}/daily_{n}m/{tag}_daily_{n}m_{YYYY-MM-DD}.parquet`. */
  function HistoricalDataPath(hist: string, symbol: string, timeframe: int, date: Dates.Date): string
    requires Dates.Valid(date)
  {
    HistoricalFolder(hist, symbol, timeframe) + (DayFilePrefix(symbol, timeframe) + (Dates.Format(date) + ".parquet"))
  }

  /** A day's file sits in its market's folder under the historical folder,
      and its name ends with the date. */
  lemma HistoricalDataPathShape(hist: string, symbol: string, timeframe: int, date: Dates.Date)
    requires Dates.Valid(date)
    ensures Strings.StartsWith(HistoricalDataPath(hist, symbol, timeframe, date), HistoricalFolder(hist, symbol, timeframe))
    ensures Strings.StartsWith(HistoricalDataPath(hist, symbol, timeframe, date), hist + "/")
    ensures Strings.EndsWith(HistoricalDataPath(hist, symbol, timeframe, date), Dates.Format(date) + ".parquet")
  {
    var folder := HistoricalFolder(hist, symbol, timeframe);
    var name := DayFilePrefix(symbol, timeframe);
    var tail := Dates.Format(date) + ".parquet";
    ConcatEnds(folder, name + tail);
    ConcatEnds(name, tail);
    Strings.SuffixOfJoin(folder, name + tail, tail);
    FolderUnderHist(hist, symbol, timeframe);
    Strings.PrefixOfJoin(folder, name + tail, hist + "/");
  }

  lemma FolderUnderHist(hist: string, symbol: string, timeframe: int)
    ensures Strings.StartsWith(HistoricalFolder(hist, symbol, timeframe), hist + "/")
  {
    var h := hist + "/";
    var n := Strings.IntToString(timeframe);
    ConcatEnds(h, SymbolTag(symbol));
    Strings.PrefixOfJoin(h + SymbolTag(symbol), "/daily_", h);
    Strings.PrefixOfJoin(h + SymbolTag(symbol) + "/daily_", n, h);
    Strings.PrefixOfJoin(h + SymbolTag(symbol) + "/daily_" + n, "m/", h);
  }

  lemma ConcatEnds(x: string, y: string)
    ensures Strings.StartsWith(x + y, x) && Strings.EndsWith(x + y, y)
  {
    assert (x + y)[..|x|] == x;
    assert (x + y)[|x|..] == y;
  }

  /** The key of the cached training set: `training_datasets/{start}_{end}.parquet`. */
  function DatasetKey(start: Dates.Date, end: Dates.Date): string
    requires Dates.Valid(start) && Dates.Valid(end)
  {
    "training_datasets/" + Dates.Format(start) + "_" + Dates.Format(end) + ".parquet"
  }

  /** `get_days_ago` as written: it subtracts a `date` from an aware
      `datetime`, which Python refuses with a TypeError for every date. */
  function DaysAgoAsWritten(today: Dates.Date, date: Dates.Date): (r: Result<int>)
    ensures r.Failure?
  {
    Failure("TypeError: unsupported operand type(s) for -: 'datetime.datetime' and 'datetime.date'")
  }

  /** The number of whole days from `date` to today, as the function intends. */
  function DaysAgo(today: Dates.Date, date: Dates.Date): (r: int)
    requires Dates.Valid(today) && Dates.Valid(date)
    ensures Dates.Before(date, today) ==> r > 0
    ensures date == today ==> r == 0
  {
    Dates.DayNumber(today) - Dates.DayNumber(date)
  }

  /** Fetching `DaysAgo(today, date)` days back starts at midnight of `date`
      itself, for any date. */
  lemma DaysAgoStartsAtDate(today: Dates.Date, date: Dates.Date)
    requires Dates.Valid(today) && Dates.Valid(date)
    ensures BinanceFetching.Since(today, DaysAgo(today, date)) == Some(BinanceFetching.Midnight(date))
  {
    var k := Dates.DayNumber(date) - Dates.DayNumber(today);
    assert -DaysAgo(today, date) == k;
    Dates.DayNumberPositive(date);
    Dates.ShiftDaysNumber(today, k);
    var d := Dates.ShiftDays(today, k).value;
    assert Dates.DayNumber(d) == Dates.DayNumber(date);
    assert BinanceFetching.Midnight(d) == BinanceFetching.Midnight(date);
  }

  /** The cache-through read of `fetch_ohlcv`: a non-empty cached table is
      returned as is; otherwise the downloaded table is stored and returned.
      The result pairs the table with the store after the call. */
  function CacheThrough(objects: map<string, Blob>, key: string, downloaded: Table): (r: (Table, map<string, Blob>))
    ensures TableAt(r.1, key) == r.0
    ensures !IsEmpty(TableAt(objects, key)) ==> r == (TableAt(objects, key), objects)
    ensures IsEmpty(TableAt(objects, key)) ==> r.0 == downloaded
    ensures forall k :: k != key ==> (k in r.1 <==> k in objects) && (k in objects ==> r.1[k] == objects[k])
  {
    var cached := TableAt(objects, key);
    if !IsEmpty(cached) then (cached, objects)
    else (downloaded, objects[key := TableFile(downloaded)])
  }

  /** The column name after `aggregate`'s rename: every column but the timestamp
      gets the market's tag as a suffix. */
  function RenameKey(c: string, tag: string): string {
    if c == TimestampColumn then c else c + "_" + tag
  }

  /** Renaming never merges two columns. */
  lemma RenameKeyInjective(tag: string)
    ensures forall a, b :: RenameKey(a, tag) == RenameKey(b, tag) ==> a == b
  {
    forall a, b | RenameKey(a, tag) == RenameKey(b, tag)
      ensures a == b
    {
      assert '_' !in TimestampColumn;
      if a != TimestampColumn {
        assert RenameKey(a, tag)[|a|] == '_';
      }
      if b != TimestampColumn {
        assert RenameKey(b, tag)[|b|] == '_';
      }
      if a != TimestampColumn && b != TimestampColumn {
        assert a == (a + "_" + tag)[..|a|];
        assert b == (b + "_" + tag)[..|b|];
      }
    }
  }

  function RenameRow(r: Row, tag: string): (s: Row)
    ensures forall c :: c in r ==> RenameKey(c, tag) in s && s[RenameKey(c, tag)] == r[c]
    ensures forall k :: k in s ==> exists c :: c in r && k == RenameKey(c, tag)
  {
    RenameKeyInjective(tag);
    map c | c in r :: RenameKey(c, tag) := r[c]
  }

  /** `df.rename(columns={c: f"{c}_{tag}" ...})`. */
  function RenameColumns(t: Table, tag: string): (r: Table)
    ensures |r.columns| == |t.columns| && |r.rows| == |t.rows|
    ensures forall i :: 0 <= i < |t.columns| ==> r.columns[i] == RenameKey(t.columns[i], tag)
    ensures forall i :: 0 <= i < |t.rows| ==> r.rows[i] == RenameRow(t.rows[i], tag)
  {
    Table(seq(|t.columns|, i requires 0 <= i < |t.columns| => RenameKey(t.columns[i], tag)),
          seq(|t.rows|, i requires 0 <= i < |t.rows| => RenameRow(t.rows[i], tag)))
  }

  /** A renamed row keeps its timestamp and every other cell under the new name. */
  lemma RenamedCells(r: Row, tag: string, c: string)
    ensures Get(RenameRow(r, tag), RenameKey(c, tag)) == Get(r, c)
    ensures Get(RenameRow(r, tag), TimestampColumn) == Get(r, TimestampColumn)
  {
    RenameKeyInjective(tag);
    assert RenameKey(TimestampColumn, tag) == TimestampColumn;
  }

  /** `aggregate`: the first market's renamed table becomes the data; later
      ones are inner-joined on the timestamp. */
  function AggregateInto(data: Table, symbol: string, additional: Table): Table {
    var renamed := RenameColumns(additional, SymbolTag(symbol));
    if IsEmpty(data) then renamed else InnerJoin(data, renamed, TimestampColumn)
  }

  /** Every column but the timestamp carries the tag of one of the markets. */
  predicate Tagged(columns: seq<string>) {
    forall c :: c in columns && c != TimestampColumn ==> exists t :: t in MarketTags && Strings.EndsWith(c, "_" + t)
  }

  /** A renamed column other than the timestamp ends in "_" and the tag. */
  lemma RenameKeyEnds(c: string, tag: string)
    requires c != TimestampColumn
    ensures Strings.EndsWith(RenameKey(c, tag), "_" + tag)
  {
    var suffix := "_" + tag;
    assert RenameKey(c, tag) == c + suffix;
    assert (c + suffix)[|c + suffix| - |suffix|..] == suffix;
  }

  lemma RenamedTagged(t: Table, j: nat)
    requires j < |Markets|
    ensures Tagged(RenameColumns(t, MarketTags[j]).columns)
  {
    var tag := MarketTags[j];
    var r := RenameColumns(t, tag);
    forall c | c in r.columns && c != TimestampColumn
      ensures exists u :: u in MarketTags && Strings.EndsWith(c, "_" + u)
    {
      var i :| 0 <= i < |r.columns| && r.columns[i] == c;
      RenameKeyEnds(t.columns[i], tag);
      assert tag in MarketTags;
    }
  }

  lemma AggregateTagged(data: Table, j: nat, additional: Table)
    requires j < |Markets|
    requires IsEmpty(data) || Tagged(data.columns)
    ensures Tagged(AggregateInto(data, Markets[j], additional).columns)
  {
    assert SymbolTag(Markets[j]) == MarketTags[j];
    var renamed := RenameColumns(additional, MarketTags[j]);
    RenamedTagged(additional, j);
    if !IsEmpty(data) {
      var cs := InnerJoin(data, renamed, TimestampColumn).columns;
      assert cs == data.columns + Without(renamed.columns, TimestampColumn);
      forall c | c in cs && c != TimestampColumn
        ensures exists u :: u in MarketTags && Strings.EndsWith(c, "_" + u)
      {
        if c !in data.columns {
          assert c in renamed.columns;
        }
      }
    }
  }

  /** The collection loop of one market as a fold over the cache: day i is
      read from key `keys(i)`, or downloaded as `downloads(i)` on a miss, and
      the days are concatenated in order. Paired with the store after. */
  function CollectDays(objects: map<string, Blob>, keys: nat -> string, downloads: nat -> Table, n: nat): (Table, map<string, Blob>) {
    if n == 0 then (EmptyTable, objects)
    else CollectNext(CollectDays(objects, keys, downloads, n - 1), keys(n - 1), downloads(n - 1))
  }

  /** One more day appended to a collection. */
  function CollectNext(prev: (Table, map<string, Blob>), key: string, downloaded: Table): (r: (Table, map<string, Blob>))
    ensures r.0.rows == prev.0.rows + CacheThrough(prev.1, key, downloaded).0.rows
  {
    var f := CacheThrough(prev.1, key, downloaded);
    (Concat(prev.0, f.0), f.1)
  }

  lemma PrefixTransitive<T>(a: seq<T>, b: seq<T>, c: seq<T>)
    requires a <= b && b <= c
    ensures a <= c
  {
    assert c[..|a|] == b[..|a|];
  }

  /** Days are appended in date order: what the first m days collected is a
      prefix of what the first n days collect. */
  lemma {:induction false} CollectedInDateOrder(objects: map<string, Blob>, keys: nat -> string, downloads: nat -> Table, m: nat, n: nat)
    requires m <= n
    ensures CollectDays(objects, keys, downloads, m).0.rows <= CollectDays(objects, keys, downloads, n).0.rows
    decreases n - m
  {
    if m < n {
      var a := CollectDays(objects, keys, downloads, m).0.rows;
      var b := CollectDays(objects, keys, downloads, m + 1).0.rows;
      var c := CollectDays(objects, keys, downloads, n).0.rows;
      CollectStepExtends(objects, keys, downloads, m);
      CollectedInDateOrder(objects, keys, downloads, m + 1, n);
      PrefixTransitive(a, b, c);
    }
  }

  /** One more day only appends to the rows collected so far. */
  lemma CollectStepExtends(objects: map<string, Blob>, keys: nat -> string, downloads: nat -> Table, n: nat)
    ensures CollectDays(objects, keys, downloads, n).0.rows <= CollectDays(objects, keys, downloads, n + 1).0.rows
  {
    var before := CollectDays(objects, keys, downloads, n);
    var prev := before.0.rows;
    var next := CollectNext(before, keys(n), downloads(n)).0.rows;
    assert next[..|prev|] == prev;
  }

  /** When every day's key lies under `folder`, collecting leaves every other
      key of the store as it was. */
  lemma {:induction false} CollectKeepsOtherKeys(objects: map<string, Blob>, keys: nat -> string, downloads: nat -> Table, n: nat, folder: string)
    requires forall i :: 0 <= i < n ==> Strings.StartsWith(keys(i), folder)
    ensures forall k :: !Strings.StartsWith(k, folder) ==>
      (k in CollectDays(objects, keys, downloads, n).1 <==> k in objects)
      && (k in objects ==> CollectDays(objects, keys, downloads, n).1[k] == objects[k])
    decreases n
  {
    if n > 0 {
      CollectKeepsOtherKeys(objects, keys, downloads, n - 1, folder);
      assert Strings.StartsWith(keys(n - 1), folder);
    }
  }

  class CryptoTrainingDataset {
    var data: Table
    /** The day the dataset was created on, which is also the day of every fetch. */
    const today: Dates.Date
    const startDate: Dates.Date
    const endDate: Dates.Date
    const s3: S3Store
    /** The historical-data folder of the store. */
    const histFolder: string
    const exchange: BinanceFetching.Exchange

    predicate WellFormed() {
      Dates.Valid(today) && Dates.Valid(startDate) && Dates.Valid(endDate)
    }

    /** The end is the day before creation; the start lies the configured
        number of months before the end. A start before year 1 is excluded. */
    constructor(today: Dates.Date, periodMonths: int, s3: S3Store, histFolder: string, exchange: BinanceFetching.Exchange)
      requires Dates.Valid(today) && today != Dates.Date(1, 1, 1)
      requires Dates.PrevDay(today).year * 12 + Dates.PrevDay(today).month - 1 - periodMonths >= 12
      ensures WellFormed()
      ensures this.today == today && endDate == Dates.PrevDay(today)
      ensures startDate == Dates.AddMonths(Dates.PrevDay(today), -periodMonths)
      ensures this.s3 == s3 && this.histFolder == histFolder && this.exchange == exchange
      ensures data == EmptyTable
    {
      this.today := today;
      endDate := Dates.PrevDay(today);
      startDate := Dates.AddMonths(Dates.PrevDay(today), -periodMonths);
      this.s3 := s3;
      this.histFolder := histFolder;
      this.exchange := exchange;
      data := EmptyTable;
    }

    function Key(): string
      requires WellFormed()
    {
      DatasetKey(startDate, endDate)
    }

    function DayKey(symbol: string, date: Dates.Date): string
      requires Dates.Valid(date)
    {
      HistoricalDataPath(histFolder, symbol, IntervalMin, date)
    }

    /** The exchange download for one day, with the intended day count. */
    function Download(symbol: string, date: Dates.Date): Result<Table>
      requires WellFormed() && Dates.Valid(date)
    {
      BinanceFetching.FetchDailyLegacy(exchange, today, symbol, IntervalMin, DaysAgo(today, date))
    }

    /** The 96 fifteen-minute candles of a day, from its midnight. */
    function DayCandles(symbol: string, date: Dates.Date): Table
      requires Dates.Valid(date)
    {
      BinanceFetching.CandlesToTable(exchange(symbol, "15m", BinanceFetching.Midnight(date), 96))
    }

    /** A download asks for exactly that day's candles, and never fails. */
    lemma DownloadAsksForTheDay(symbol: string, date: Dates.Date)
      requires WellFormed() && Dates.Valid(date)
      ensures Download(symbol, date) == Success(DayCandles(symbol, date))
    {
      DaysAgoStartsAtDate(today, date);
      assert Strings.NatToString(15) == Strings.NatToString(1) + [Strings.DigitChar(5)];
      assert Strings.IntToString(IntervalMin) + "m" == "15m";
      assert BinanceFetching.Limit(IntervalMin) == Success(96);
    }

    /** The download as written: the day count raises before the exchange is asked. */
    function DownloadAsWritten(symbol: string, date: Dates.Date): Result<Table> {
      Failure(DaysAgoAsWritten(today, date).error)
    }

    /** `fetch_ohlcv` as written, on a given store. */
    function FetchDayAsWritten(objects: map<string, Blob>, symbol: string, date: Dates.Date): Result<Table>
      requires Dates.Valid(date)
    {
      var cached := TableAt(objects, DayKey(symbol, date));
      if !IsEmpty(cached) then Success(cached) else DownloadAsWritten(symbol, date)
    }

    /** `fetch_ohlcv(symbol, date)` on a given store, with the intended day count. */
    function FetchDay(objects: map<string, Blob>, symbol: string, date: Dates.Date): (Table, map<string, Blob>)
      requires Dates.Valid(date)
    {
      CacheThrough(objects, DayKey(symbol, date), DayCandles(symbol, date))
    }

    /** As written, every cache miss ends in the TypeError, so a training set
        can only be built from days already cached; on a hit both versions
        return the cached table. */
    lemma CacheMissFailsAsWritten(objects: map<string, Blob>, symbol: string, date: Dates.Date)
      requires Dates.Valid(date)
      ensures IsEmpty(TableAt(objects, DayKey(symbol, date))) ==> FetchDayAsWritten(objects, symbol, date).Failure?
      ensures !IsEmpty(TableAt(objects, DayKey(symbol, date))) ==>
        FetchDayAsWritten(objects, symbol, date) == Success(FetchDay(objects, symbol, date).0)
    {
    }

    /** The number of days the collection loop visits: those from the start
        up to the day before the end. */
    function NumDays(): nat
      requires WellFormed()
    {
      if Dates.Before(startDate, endDate) then Dates.DayNumber(endDate) - Dates.DayNumber(startDate) else 0
    }

    /** The days visited are exactly those from the start date up to, but not
        including, the end date. */
    lemma VisitedDays(i: nat)
      requires WellFormed()
      ensures i < NumDays() <==>
        !Dates.Before(Dates.AddDays(startDate, i), startDate) && Dates.Before(Dates.AddDays(startDate, i), endDate)
    {
      Dates.AddDaysNumber(startDate, i);
    }

    /** Day i of the collection comes before the end exactly when i is below
        the number of days. */
    lemma DayBeforeEnd(i: nat)
      requires WellFormed()
      ensures Dates.Before(Dates.AddDays(startDate, i), endDate) <==> i < NumDays()
    {
      Dates.AddDaysNumber(startDate, i);
    }

    /** The key and the download of day i of a market's collection. */
    function DayKeys(symbol: string): nat -> string
      requires WellFormed()
    {
      (i: nat) => DayKey(symbol, Dates.AddDays(startDate, i))
    }

    function DayDownloads(symbol: string): nat -> Table
      requires WellFormed()
    {
      (i: nat) => DayCandles(symbol, Dates.AddDays(startDate, i))
    }

    /** One more day of the collection is that day fetched through the cache
        and appended. */
    lemma CollectStep(objects: map<string, Blob>, symbol: string, i: nat)
      requires WellFormed()
      ensures var p := CollectDays(objects, DayKeys(symbol), DayDownloads(symbol), i);
        var f := FetchDay(p.1, symbol, Dates.AddDays(startDate, i));
        CollectDays(objects, DayKeys(symbol), DayDownloads(symbol), i + 1) == (Concat(p.0, f.0), f.1)
    {
    }

    /** Every day's file of a market lies under the historical folder, so a
        collection leaves the rest of the store, the cached training sets
        included, as it was. */
    lemma CollectionStaysInHistory(objects: map<string, Blob>, symbol: string, n: nat)
      requires WellFormed()
      ensures forall k :: !Strings.StartsWith(k, histFolder + "/") ==>
        (k in CollectDays(objects, DayKeys(symbol), DayDownloads(symbol), n).1 <==> k in objects)
        && (k in objects ==> CollectDays(objects, DayKeys(symbol), DayDownloads(symbol), n).1[k] == objects[k])
    {
      forall i | 0 <= i < n
        ensures Strings.StartsWith(DayKeys(symbol)(i), histFolder + "/")
      {
        HistoricalDataPathShape(histFolder, symbol, IntervalMin, Dates.AddDays(startDate, i));
      }
      CollectKeepsOtherKeys(objects, DayKeys(symbol), DayDownloads(symbol), n, histFolder + "/");
    }

    /** The markets `Markets[..k]` gathered into `data`; paired with the store after. */
    function Gather(objects: map<string, Blob>, data: Table, k: nat): (Table, map<string, Blob>)
      requires WellFormed() && k <= |Markets|
    {
      if k == 0 then (data, objects)
      else GatherNext(Gather(objects, data, k - 1), Markets[k - 1])
    }

    /** One more market collected and aggregated. */
    function GatherNext(g: (Table, map<string, Blob>), symbol: string): (Table, map<string, Blob>)
      requires WellFormed()
    {
      var c := CollectDays(g.1, DayKeys(symbol), DayDownloads(symbol), NumDays());
      (AggregateInto(g.0, symbol, c.0), c.1)
    }

    /** Once a market is gathered, every column but the timestamp carries a
        market's tag, whatever the (empty) starting table was. */
    lemma {:induction false} GatheredColumnsTagged(objects: map<string, Blob>, data: Table, k: nat)
      requires WellFormed() && 1 <= k <= |Markets| && IsEmpty(data)
      ensures Tagged(Gather(objects, data, k).0.columns)
      decreases k
    {
      var g := Gather(objects, data, k - 1);
      var c := CollectDays(g.1, DayKeys(Markets[k - 1]), DayDownloads(Markets[k - 1]), NumDays());
      if k > 1 {
        GatheredColumnsTagged(objects, data, k - 1);
      }
      AggregateTagged(g.0, k - 1, c.0);
    }

    /** `load`: the cached training set, or the empty table. */
    method Load() returns (t: Table)
      requires WellFormed()
      modifies this
      ensures t == data && data == TableAt(s3.objects, Key())
    {
      data := s3.LoadParquet(Key());
      t := data;
    }

    /** `save`: store the data unless it is empty. */
    method Save()
      requires WellFormed()
      modifies s3
      ensures s3.objects == if IsEmpty(data) then old(s3.objects) else old(s3.objects)[Key() := TableFile(data)]
    {
      if !IsEmpty(data) {
        s3.SaveParquet(data, Key());
      }
    }

    /** `fetch_ohlcv`: one day of one market through the cache. */
    method FetchOhlcv(symbol: string, date: Dates.Date) returns (df: Table)
      requires WellFormed() && Dates.Valid(date)
      modifies s3
      ensures (df, s3.objects) == FetchDay(old(s3.objects), symbol, date)
    {
      var key := DayKey(symbol, date);
      df := s3.LoadParquet(key);
      if IsEmpty(df) {
        DownloadAsksForTheDay(symbol, date);
        df := Download(symbol, date).value;
        s3.SaveParquet(df, key);
      }
    }

    /** `aggregate`. */
    method Aggregate(symbol: string, additional: Table)
      modifies this
      ensures data == AggregateInto(old(data), symbol, additional)
    {
      data := AggregateInto(data, symbol, additional);
    }

    /** The `while` loop of `get_data` for one market: every day from the
        start up to the end, fetched through the cache and concatenated. */
    method Collect(symbol: string) returns (collected: Table)
      requires WellFormed()
      modifies s3
      ensures (collected, s3.objects) == CollectDays(old(s3.objects), DayKeys(symbol), DayDownloads(symbol), NumDays())
    {
      collected := EmptyTable;
      var current := startDate;
      var i := 0;
      while Dates.Before(current, endDate)
        invariant 0 <= i <= NumDays()
        invariant current == Dates.AddDays(startDate, i)
        invariant CollectDays(old(s3.objects), DayKeys(symbol), DayDownloads(symbol), i) == (collected, s3.objects)
        decreases NumDays() - i
      {
        DayBeforeEnd(i);
        CollectStep(old(s3.objects), symbol, i);
        var df := FetchOhlcv(symbol, current);
        collected := Concat(collected, df);
        Dates.AddDaysLast(startDate, i);
        current := Dates.NextDay(current);
        i := i + 1;
      }
      DayBeforeEnd(i);
    }

    /** The `for symbol in self.markets` loop of `get_data`: each market
        collected and aggregated in turn, starting from the loaded data. */
    method GatherAll()
      requires WellFormed()
      modifies this, s3
      ensures (data, s3.objects) == Gather(old(s3.objects), old(data), |Markets|)
    {
      var k := 0;
      while k < |Markets|
        invariant 0 <= k <= |Markets|
        invariant Gather(old(s3.objects), old(data), k) == (data, s3.objects)
      {
        var symbol := Markets[k];
        ghost var g := (data, s3.objects);
        var collected := Collect(symbol);
        assert (collected, s3.objects) == CollectDays(g.1, DayKeys(symbol), DayDownloads(symbol), NumDays());
        Aggregate(symbol, collected);
        assert (data, s3.objects) == GatherNext(g, symbol);
        k := k + 1;
      }
    }

    /** `get_data`: the cached training set when there is one; otherwise every
        market is collected day by day and aggregated, and the result cached. */
    method GetData() returns (r: Table)
      requires WellFormed()
      modifies this, s3
      ensures var loaded := TableAt(old(s3.objects), Key());
        !IsEmpty(loaded) ==> r == loaded && data == loaded && s3.objects == old(s3.objects)
      ensures var loaded := TableAt(old(s3.objects), Key());
        var g := Gather(old(s3.objects), loaded, |Markets|);
        IsEmpty(loaded) ==>
          && r == g.0
          && data == g.0
          && s3.objects == (if IsEmpty(g.0) then g.1 else g.1[Key() := TableFile(g.0)])
      ensures !IsEmpty(r) ==> TableAt(s3.objects, Key()) == r
    {
      var loaded := Load();
      if !IsEmpty(loaded) {
        return data;
      }
      GatherAll();
      Save();
      r := data;
    }
  }
}
