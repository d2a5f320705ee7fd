/** `download_mt5` of fetch/mt5.py, the older downloader: bars from the MT5
 *  terminal, always upserted row by row into Postgres. */
module LegacyMt5Download {
  import opened Common
  import opened Mt5

  /** `ensure_schema_and_table`: the lower-cased symbol, except that "gold#"
   *  in any case becomes "gold". Nothing is stripped. */
  function LegacySchemaName(symbol: string): (schema: string)
    ensures Lower(symbol) == "gold#" ==> schema == "gold"
    ensures Lower(symbol) != "gold#" ==> schema == Lower(symbol) && |schema| == |symbol|
  {
    if Lower(symbol) == "gold#" then "gold" else Lower(symbol)
  }

  /** The table is `ohlc_` followed by the timeframe name as given. */
  function LegacyTableName(timeframe: string): (table: string)
    ensures |table| == |timeframe| + 5
    ensures table[..5] == "ohlc_" && table[5..] == timeframe
  {
    "ohlc_" + timeframe
  }

  /** The bar-time column of the table the legacy `ensure_schema_and_table`
   *  creates. */
  const LEGACY_TIME_COLUMN: string := "time"

  /** "gold#" in any case becomes a schema name that can stand unquoted,
   *  while any other symbol holding `#` keeps it and cannot. */
  lemma LegacyHashSymbols(symbol: string)
    ensures Lower(symbol) == "gold#" ==> PlainIdentifier(LegacySchemaName(symbol))
    ensures '#' in symbol && Lower(symbol) != "gold#" ==> !PlainIdentifier(LegacySchemaName(symbol))
  {
    if '#' in symbol && Lower(symbol) != "gold#" {
      var i :| 0 <= i < |symbol| && symbol[i] == '#';
      assert LegacySchemaName(symbol)[i] == '#';
    }
  }

  /** Distinct valid timeframes get distinct tables, and a symbol spelled
   *  "GOLD#" or "Gold#" lands in the same schema as "gold". */
  lemma LegacyNamesSeparate(t1: string, t2: string)
    requires t1 != t2
    ensures LegacyTableName(t1) != LegacyTableName(t2)
    ensures LegacySchemaName("GOLD#") == LegacySchemaName("gold") == LegacySchemaName("Gold#") == "gold"
  {
    assert LegacyTableName(t1)[5..] == t1;
    assert Lower("GOLD#") == "gold#";
    assert Lower("Gold#") == "gold#";
    assert Lower("gold") == "gold";
  }

  /** What the legacy `download_mt5` does once the pre-fetch phase `p` has
   *  ended: nothing more when it raised; otherwise fetch, shut the terminal
   *  down, and upsert and commit non-empty bars. */
  function LegacyAfterFetch(p: FetchPhase, rates: Option<seq<Rate>>): (s: Session)
    ensures p.Stopped? ==> s == Session(Err(p.error), p.calls, [])
    ensures p.Fetching? ==>
      s.result.Ok? && |s.calls| >= |p.calls| + 2 && s.calls[..|p.calls| + 2] == p.calls + [Fetch(p.request), Shutdown]
    ensures s.result == Ok(EmptyFrame) <==> p.Fetching? && (rates.None? || rates.value == [])
    ensures s.result == Ok(EmptyFrame) ==> s.upserts == [] && s.calls[|s.calls| - 1] == CloseConnection
    ensures s.result == Ok(NoneReturned) ==>
      s.upserts == Entries(rates.value) && s.upserts != [] && s.calls[|s.calls| - 2..] == [Commit, CloseConnection]
  {
    match p
    case Stopped(e, calls) => Session(Err(e), calls, [])
    case Fetching(request, calls) =>
      var fetched := calls + [Fetch(request), Shutdown];
      if rates.None? || rates.value == [] then Session(Ok(EmptyFrame), fetched + [CloseConnection], [])
      else Session(Ok(NoneReturned), fetched + [Commit, CloseConnection], Entries(rates.value))
  }

  /** All that one call does, given the terminal's and the database's
   *  answers. */
  function LegacyPlan(symbol: string, timeframe: string, n: int, dateFrom: Option<string>, dateTo: Option<string>,
                      initOk: bool, schemaOk: bool, latest: LatestStored, rates: Option<seq<Rate>>): (s: Session)
    ensures ValidateTimeframe(timeframe).Err? ==> s == Session(Err(ValueError), [], [])
    ensures !initOk ==> s.result.Err? && s.upserts == [] && Connect !in s.calls
    ensures s.calls != [] ==> s.calls[0] == Initialize
    ensures s.upserts != [] ==> initOk && timeframe in TIMEFRAMES && rates.Some? && s.upserts == Entries(rates.value)
    ensures s.upserts != [] ==> SchemaCreated(LegacySchemaName(symbol), LegacyTableName(timeframe), schemaOk)
    ensures ValidateTimeframe(timeframe).Ok? && initOk
            && !SchemaCreated(LegacySchemaName(symbol), LegacyTableName(timeframe), schemaOk) ==>
      s == Session(Err(DatabaseError), [Initialize, Connect, EnsureSchema(LegacySchemaName(symbol), LegacyTableName(timeframe))], [])
  {
    LegacyAfterFetch(BeforeFetch(symbol, timeframe, LegacySchemaName(symbol), LegacyTableName(timeframe),
                                 LEGACY_TIME_COLUMN, n, dateFrom, dateTo, initOk, schemaOk, latest), rates)
  }

  /** The legacy `download_mt5`, with its upserts executed one row at a time
   *  against `db`. */
  method LegacyDownloadMt5(db: PgTable, symbol: string, timeframe: string, n: int,
                           dateFrom: Option<string>, dateTo: Option<string>,
                           initOk: bool, schemaOk: bool, latest: LatestStored, rates: Option<seq<Rate>>)
    returns (result: Result<Downloaded>, calls: seq<Mt5Call>)
    modifies db
    ensures var s := LegacyPlan(symbol, timeframe, n, dateFrom, dateTo, initOk, schemaOk, latest, rates);
      result == s.result && calls == s.calls && db.rows == Upserted(old(db.rows), s.upserts)
  {
    var s := LegacyPlan(symbol, timeframe, n, dateFrom, dateTo, initOk, schemaOk, latest, rates);
    if s.upserts != [] {
      UpsertRates(db, rates.value);
    }
    result, calls := s.result, s.calls;
  }
}
