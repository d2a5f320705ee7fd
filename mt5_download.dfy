/** `download_mt5` of algotrader/fetch/mt5.py: bars from the MT5 terminal,
 *  written to a parquet file or upserted row by row into Postgres. */
module Mt5Download {
  import opened Common
  import opened Utils
  import opened Mt5
  import Naming
  import Dates

  /** `ensure_schema_and_table`: the schema is the symbol with every
   *  non-alphanumeric character dropped, in lower case. */
  function SchemaName(symbol: string): (schema: string)
    ensures schema == Lower(Strip(symbol))
    ensures |schema| <= |symbol|
    ensures AllAlnum(schema)
    ensures forall i :: 0 <= i < |schema| ==> !('A' <= schema[i] <= 'Z')
  {
    Lower(Strip(symbol))
  }

  /** The table is the timeframe name in lower case. */
  function TableName(timeframe: string): (table: string)
    ensures table == Lower(timeframe)
    ensures |table| == |timeframe|
    ensures forall i :: 0 <= i < |table| ==> !('A' <= table[i] <= 'Z')
  {
    Lower(timeframe)
  }

  /** The bar-time column of the table `ensure_schema_and_table` creates. */
  const TIME_COLUMN: string := "timestamp"

  /** The parquet file is named `schema_table`: the storage name shared with
   *  the Dukascopy downloader. */
  function ParquetPath(symbol: string, timeframe: string): (path: string)
    ensures path == Naming.StorageName(symbol, timeframe)
    ensures Naming.SplitAtUnderscore(path) == (SchemaName(symbol), TableName(timeframe))
  {
    SchemaName(symbol) + "_" + TableName(timeframe)
  }

  /** Lower-casing a name that has no upper-case letter changes nothing, so
   *  the schema name, taken again as a symbol, names the same schema. */
  lemma SchemaNameIdempotent(symbol: string)
    ensures SchemaName(SchemaName(symbol)) == SchemaName(symbol)
  {
    var schema := SchemaName(symbol);
    StripKeepsAlnum(schema);
    assert Lower(schema) == schema;
  }

  /** What `download_mt5` does once the pre-fetch phase `p` has ended:
   *  nothing more when it raised; otherwise fetch, shut the terminal down,
   *  and save non-empty bars as `saveMode` says. */
  function AfterFetch(p: FetchPhase, path: string, saveMode: string, rates: Option<seq<Rate>>): (s: Session)
    ensures p.Stopped? ==> s == Session(Err(p.error), p.calls, [])
    ensures p.Fetching? ==>
      s.result.Ok? && |s.calls| >= |p.calls| + 2 && s.calls[..|p.calls| + 2] == p.calls + [Fetch(p.request), Shutdown]
    ensures s.result == Ok(EmptyFrame) <==> p.Fetching? && (rates.None? || rates.value == [])
    ensures s.result == Ok(EmptyFrame) ==> s.upserts == [] && s.calls[|s.calls| - 1] == CloseConnection
    ensures s.upserts != [] ==> saveMode == "postgres" && s.result == Ok(NoneReturned)
    ensures s.result == Ok(NoneReturned) && saveMode == "postgres" ==>
      s.upserts == Entries(rates.value) && s.calls[|s.calls| - 2..] == [Commit, CloseConnection]
    ensures s.result == Ok(NoneReturned) && saveMode == "parquet" ==>
      s.calls[|s.calls| - 2..] == [WriteParquet(path, Bars(rates.value)), CloseConnection]
    ensures s.result == Ok(NoneReturned) && saveMode != "parquet" && saveMode != "postgres" ==>
      s.calls[|s.calls| - 1] == Shutdown && s.upserts == []
  {
    match p
    case Stopped(e, calls) => Session(Err(e), calls, [])
    case Fetching(request, calls) =>
      var fetched := calls + [Fetch(request), Shutdown];
      if rates.None? || rates.value == [] then Session(Ok(EmptyFrame), fetched + [CloseConnection], [])
      else if saveMode == "parquet" then
        Session(Ok(NoneReturned), fetched + [WriteParquet(path, Bars(rates.value)), CloseConnection], [])
      else if saveMode == "postgres" then
        Session(Ok(NoneReturned), fetched + [Commit, CloseConnection], Entries(rates.value))
      else Session(Ok(NoneReturned), fetched, [])
  }

  /** All that one `download_mt5` call does, given the terminal's and the
   *  database's answers: `initOk` from `mt5.initialize()`, `schemaOk` for
   *  creating plainly named objects, `latest` from the latest-timestamp query
   *  on a table it could read, `rates` from the fetch (None when it fails). */
  function Plan(symbol: string, timeframe: string, n: int, dateFrom: Option<string>, dateTo: Option<string>,
                saveMode: string, initOk: bool, schemaOk: bool, latest: LatestStored,
                rates: Option<seq<Rate>>): (s: Session)
    ensures ValidateTimeframe(timeframe).Err? ==> s == Session(Err(ValueError), [], [])
    ensures !initOk ==> s.result.Err? && s.upserts == [] && Connect !in s.calls
    ensures s.calls != [] ==> s.calls[0] == Initialize
    ensures s.upserts != [] ==>
      saveMode == "postgres" && initOk && timeframe in TIMEFRAMES
      && SchemaCreated(SchemaName(symbol), TableName(timeframe), schemaOk)
    ensures ValidateTimeframe(timeframe).Ok? && initOk && !SchemaCreated(SchemaName(symbol), TableName(timeframe), schemaOk) ==>
      s == Session(Err(DatabaseError), [Initialize, Connect, EnsureSchema(SchemaName(symbol), TableName(timeframe))], [])
  {
    AfterFetch(BeforeFetch(symbol, timeframe, SchemaName(symbol), TableName(timeframe), TIME_COLUMN, n,
                           dateFrom, dateTo, initOk, schemaOk, latest),
               ParquetPath(symbol, timeframe), saveMode, rates)
  }

  /** A symbol with no letter or digit gives an empty schema name, and one
   *  whose first letter or digit is a digit gives a name that cannot stand
   *  unquoted: either way `CREATE SCHEMA` is a syntax error, and the download
   *  stops there without fetching. */
  lemma UnquotableSchemaStops(symbol: string, timeframe: string, n: int, dateFrom: Option<string>,
                              dateTo: Option<string>, saveMode: string, initOk: bool, schemaOk: bool,
                              latest: LatestStored, rates: Option<seq<Rate>>)
    requires ValidateTimeframe(timeframe).Ok? && initOk
    requires Strip(symbol) == [] || '0' <= Strip(symbol)[0] <= '9'
    ensures Plan(symbol, timeframe, n, dateFrom, dateTo, saveMode, initOk, schemaOk, latest, rates)
         == Session(Err(DatabaseError), [Initialize, Connect, EnsureSchema(SchemaName(symbol), TableName(timeframe))], [])
  {
    var schema := SchemaName(symbol);
    if schema != [] {
      assert schema[0] == LowerChar(Strip(symbol)[0]) == Strip(symbol)[0];
    }
    assert !PlainIdentifier(schema);
  }

  /** The table `ensure_schema_and_table` creates has no `time` column, so
   *  whenever a date bound is missing the latest-timestamp query fails and
   *  the download raises a database error before fetching anything. */
  lemma IncrementalDownloadFails(symbol: string, timeframe: string, n: int, dateFrom: Option<string>,
                                 dateTo: Option<string>, saveMode: string, initOk: bool, schemaOk: bool,
                                 latest: LatestStored, rates: Option<seq<Rate>>)
    requires ValidateTimeframe(timeframe).Ok? && initOk && SchemaCreated(SchemaName(symbol), TableName(timeframe), schemaOk)
    requires Dates.DateBounds(dateFrom, dateTo).Ok?
    requires QueriesLatest(Dates.DateBounds(dateFrom, dateTo).value.0, Dates.DateBounds(dateFrom, dateTo).value.1)
    ensures Plan(symbol, timeframe, n, dateFrom, dateTo, saveMode, initOk, schemaOk, latest, rates)
         == Session(Err(DatabaseError), [Initialize, Connect, EnsureSchema(SchemaName(symbol), TableName(timeframe)),
                                         QueryLatest(SchemaName(symbol), TableName(timeframe))], [])
  {
    assert TIME_COLUMN != QUERIED_COLUMN;
  }

  /** `download_mt5`, with the rows it upserts executed one at a time
   *  against `db`, the table `schema`.`table`. */
  method DownloadMt5(db: PgTable, symbol: string, timeframe: string, n: int,
                     dateFrom: Option<string>, dateTo: Option<string>, saveMode: string,
                     initOk: bool, schemaOk: bool, latest: LatestStored, rates: Option<seq<Rate>>)
    returns (result: Result<Downloaded>, calls: seq<Mt5Call>)
    modifies db
    ensures var s := Plan(symbol, timeframe, n, dateFrom, dateTo, saveMode, initOk, schemaOk, latest, rates);
      result == s.result && calls == s.calls && db.rows == Upserted(old(db.rows), s.upserts)
  {
    var s := Plan(symbol, timeframe, n, dateFrom, dateTo, saveMode, initOk, schemaOk, latest, rates);
    if s.upserts != [] {
      UpsertRates(db, rates.value);
    }
    result, calls := s.result, s.calls;
  }

  /** After a postgres download of non-empty bars, every bar time is a key of
   *  the table, holding the values of the last bar with that time, and every
   *  other key keeps its old row. */
  lemma PostgresDownloadStores(table: map<int, Row>, symbol: string, timeframe: string, n: int,
                               dateFrom: Option<string>, dateTo: Option<string>,
                               initOk: bool, schemaOk: bool, latest: LatestStored, rates: seq<Rate>, i: int, k: int)
    requires Plan(symbol, timeframe, n, dateFrom, dateTo, "postgres", initOk, schemaOk, latest, Some(rates)).result == Ok(NoneReturned)
    requires 0 <= i < |rates|
    requires forall j :: i < j < |rates| ==> rates[j].time != rates[i].time
    requires forall j :: 0 <= j < |rates| ==> rates[j].time != k
    ensures var after := Upserted(table, Plan(symbol, timeframe, n, dateFrom, dateTo, "postgres", initOk, schemaOk, latest, Some(rates)).upserts);
      rates[i].time in after && after[rates[i].time] == UpsertEntry(rates[i]).1
      && (k in after <==> k in table) && (k in table ==> after[k] == table[k])
  {
    var batch := Entries(rates);
    UpsertLastWriteWins(table, batch, i);
    UpsertKeepsOtherKeys(table, batch, k);
  }
}
