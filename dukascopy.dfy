/** `download_dukascopy` of algotrader/fetch/dukascopy_data.py: fetch bars,
 *  capitalise the OHLCV column names, index the frame by the bar start moved
 *  to UTC+3, then write it to parquet, hand it to Postgres or return it. */
module Dukascopy {
  import opened Common
  import opened Frames
  import opened Dates
  import opened Naming
  import opened Utils
  import opened DukascopyCommon

  /** The rename map of the normalisation step. */
  const CAPITALISE: map<string, string> :=
    map["open" := "Open", "high" := "High", "low" := "Low", "close" := "Close", "volume" := "Volume"]

  /** The frame the download produces from a conforming fetch result: same
   *  cells, lower-case OHLCV names capitalised, every other name kept, and the
   *  bar starts, three hours later, as an index named "timestamp". */
  function Normalised(fetched: Frame): (r: Frame)
    requires Conforming(fetched)
    ensures |r.columns| == |fetched.columns|
    ensures forall i :: 0 <= i < |fetched.columns| ==>
      && r.columns[i].cells == fetched.columns[i].cells
      && (fetched.columns[i].name in CAPITALISE ==> r.columns[i].name == CAPITALISE[fetched.columns[i].name])
      && (fetched.columns[i].name !in CAPITALISE ==> r.columns[i].name == fetched.columns[i].name)
    ensures r.index.Labels? && r.index.name == Some("timestamp")
    ensures |r.index.labels| == |fetched.index.labels|
    ensures forall i :: 0 <= i < |fetched.index.labels| ==>
      r.index.labels[i] == Instant(fetched.index.labels[i].t + UTC_PLUS_3)
  {
    Frame(RenameColumns(fetched, CAPITALISE).columns,
          Labels(Some("timestamp"), ShiftToUtcPlus3(fetched.index.labels).value))
  }

  /** What each `save_mode` writes: parquet and Postgres receive the frame,
   *  "dataframe" and any other mode write nothing. */
  function SaveCalls(saveMode: string, name: string, frame: Frame): (r: seq<Call>)
    ensures |r| <= 1
    ensures r == [] <==> saveMode != "parquet" && saveMode != "postgres"
    ensures saveMode == "parquet" ==> r == [WriteParquet(name, frame, true)]
    ensures saveMode == "postgres" ==> r == [SaveToPostgres(frame, name)]
  {
    if saveMode == "parquet" then [WriteParquet(name, frame, true)]
    else if saveMode == "postgres" then [SaveToPostgres(frame, name)]
    else []
  }

  /** The columns of the table `save_to_postgres` creates, which are also the
   *  target list of its upsert. */
  const POSTGRES_COLUMNS: seq<string> := ["timestamp", "Open", "High", "Low", "Close", "Volume"]

  /** The ON CONFLICT target of that upsert. */
  const CONFLICT_TARGET: string := "time"

  /** Whether `name`, spliced unquoted into the SQL text, is a table name
   *  Postgres can parse: at most `parts` plain identifiers joined by dots
   *  (`table`, `schema.table`, `catalog.schema.table`). */
  predicate DottedIdentifier(name: string, parts: nat)
    decreases parts
  {
    && parts > 0
    && (|| PlainIdentifier(name)
        || exists i :: 0 < i < |name| && name[i] == '.' && PlainIdentifier(name[..i])
                       && DottedIdentifier(name[i + 1..], parts - 1))
  }

  /** Whether `CREATE TABLE IF NOT EXISTS table (...)` goes through. A name
   *  that is not a dotted identifier is a syntax error; for the others
   *  `created` is the database's answer (a reserved word, permissions). */
  predicate TableCreated(table: string, created: bool)
  {
    DottedIdentifier(table, 3) && created
  }

  /** Whether the database accepts `save_to_postgres(frame, table)`. The
   *  table is created first, for every frame. With no rows no further
   *  statement is sent. Otherwise each row carries one value per column of
   *  the frame (`to_records(index=False)` leaves the "timestamp" index out),
   *  which must match the target list, and the conflict target must be a
   *  column of the table. */
  predicate PostgresAccepts(frame: Frame, table: string, created: bool): (accepted: bool)
    ensures CONFLICT_TARGET !in POSTGRES_COLUMNS
    ensures accepted <==> TableCreated(table, created) && frame.index.Length() == 0
  {
    assert forall i :: 0 <= i < |POSTGRES_COLUMNS| ==> POSTGRES_COLUMNS[i] != CONFLICT_TARGET;
    && TableCreated(table, created)
    && (frame.index.Length() == 0 || (|frame.columns| == |POSTGRES_COLUMNS| && CONFLICT_TARGET in POSTGRES_COLUMNS))
  }

  /** The conflict target is not a column of the table, so every non-empty
   *  frame is rejected; a normalised five-column fetch result is also one
   *  value short per row. */
  lemma PostgresRejectsEveryRow(fetched: Frame, table: string, created: bool)
    requires Conforming(fetched)
    ensures PostgresAccepts(Normalised(fetched), table, created) <==> TableCreated(table, created) && |fetched.index.labels| == 0
    ensures |fetched.columns| == 5 ==> |Normalised(fetched).columns| < |POSTGRES_COLUMNS|
  {
    assert POSTGRES_COLUMNS[0] != CONFLICT_TARGET;
    assert forall i :: 0 <= i < |POSTGRES_COLUMNS| ==> POSTGRES_COLUMNS[i] != CONFLICT_TARGET;
  }

  /** A name whose first character cannot start an identifier is no dotted
   *  identifier: every part before a dot starts with that character. */
  lemma BadStartNotDotted(name: string, parts: nat)
    requires |name| > 0 && !IdentStart(name[0])
    ensures !DottedIdentifier(name, parts)
  {
    forall i | 0 < i < |name|
      ensures !PlainIdentifier(name[..i])
    {
      assert name[..i][0] == name[0];
    }
  }

  /** A symbol whose first letter or digit is a digit ("1INCH") gives a
   *  default table name ("1inch_m5") that cannot stand unquoted, so
   *  `CREATE TABLE` fails and postgres mode raises even with no rows. */
  lemma LeadingDigitTableRefused(symbol: string, timeframe: string, created: bool)
    requires |Strip(symbol)| > 0 && '0' <= Strip(symbol)[0] <= '9'
    ensures !TableCreated(StorageName(symbol, timeframe), created)
  {
    var name := StorageName(symbol, timeframe);
    assert name[0] == Lower(Strip(symbol))[0] == LowerChar(Strip(symbol)[0]) == Strip(symbol)[0];
    BadStartNotDotted(name, 3);
  }

  /** A verbatim name with a hyphen is refused; a schema-qualified one is a
   *  dotted identifier. */
  lemma TableNameExamples()
    ensures !DottedIdentifier("my-table", 3)
    ensures DottedIdentifier("public.eurusd_m1", 3)
  {
    var bad := "my-table";
    assert !PlainIdentifier(bad) by { assert bad[2] == '-'; }
    forall i | 0 < i < |bad|
      ensures bad[i] != '.'
    {
    }
    var good := "public.eurusd_m1";
    assert good[6] == '.';
    assert good[..6] == "public";
    assert good[7..] == "eurusd_m1";
    assert PlainIdentifier("public");
    assert PlainIdentifier("eurusd_m1");
  }

  /** The frame steps of the download, done in place on one frame:
   *  rename, `reset_index`, rename "index" to "timestamp", shift the
   *  timestamps to UTC+3, `set_index("timestamp")`. */
  method Normalise(fetched: Frame) returns (result: Result<Frame>)
    ensures Conforming(fetched) ==> result == Ok(Normalised(fetched))
    ensures result.Ok? ==> result.value.index.Labels? && result.value.index.name == Some("timestamp")
    ensures result.Err? ==> result.error == ValueError || result.error.KeyError? || result.error == ConversionError
  {
    var df := new DataFrame(RenameColumns(fetched, CAPITALISE));
    var err := Restamp(df);
    if err.Some? {
      return Err(err.value);
    }
    err := df.SetIndex("timestamp");
    assert err.None?;
    result := Ok(df.value);
    if Conforming(fetched) {
      NormalisedSteps(fetched);
    }
  }

  /** `download_dukascopy(symbol, timeframe, offer_side, date_from, date_to,
   *  table_name, save_mode)`; `fetched` is what the Dukascopy client returns
   *  and `createOk` the database's answer to `CREATE TABLE` for a name it can
   *  parse. */
  method DownloadDukascopy(symbol: string, timeframe: string, offerSide: string,
                           dateFrom: Option<string>, dateTo: Option<string>,
                           tableName: Option<string>, saveMode: string, createOk: bool, fetched: Frame)
    returns (result: Result<Option<Frame>>, calls: seq<Call>)
    ensures DateBounds(dateFrom, dateTo).Err? ==>
      result == Err(DateBounds(dateFrom, dateTo).error) && calls == []
    ensures DateBounds(dateFrom, dateTo).Ok? ==>
      var (from, to) := DateBounds(dateFrom, dateTo).value;
      |calls| >= 1 && calls[0] == FetchBars(symbol, timeframe, offerSide, from, to)
    ensures result.Ok? && result.value.Some? ==> saveMode == "dataframe"
    ensures result == Err(DatabaseError) ==> saveMode == "postgres" && calls[|calls| - 1].SaveToPostgres?
    ensures saveMode != "parquet" && saveMode != "postgres" ==> forall c :: c in calls ==> c.FetchBars?
    ensures DateBounds(dateFrom, dateTo).Ok? && Conforming(fetched) ==>
      var (from, to) := DateBounds(dateFrom, dateTo).value;
      var name := if tableName.Some? then tableName.value else StorageName(symbol, timeframe);
      && result == (if saveMode == "dataframe" then Ok(Some(Normalised(fetched)))
                    else if saveMode == "postgres" && (!TableCreated(name, createOk) || |fetched.index.labels| > 0)
                    then Err(DatabaseError)
                    else Ok(None))
      && calls == [FetchBars(symbol, timeframe, offerSide, from, to)] + SaveCalls(saveMode, name, Normalised(fetched))
  {
    var bounds := DateBounds(dateFrom, dateTo);
    if bounds.Err? {
      return Err(bounds.error), [];
    }
    var (from, to) := bounds.value;
    calls := [FetchBars(symbol, timeframe, offerSide, from, to)];
    var frame := Normalise(fetched);
    if frame.Err? {
      return Err(frame.error), calls;
    }
    var df := frame.value;
    var name := if tableName.Some? then tableName.value else StorageName(symbol, timeframe);
    if saveMode == "parquet" {
      calls := calls + [WriteParquet(name, df, true)];
      result := Ok(None);
    } else if saveMode == "postgres" {
      calls := calls + [SaveToPostgres(df, name)];
      result := if PostgresAccepts(df, name, createOk) then Ok(None) else Err(DatabaseError);
      if Conforming(fetched) {
        PostgresRejectsEveryRow(fetched, name, createOk);
      }
    } else if saveMode == "dataframe" {
      result := Ok(Some(df));
    } else {
      result := Ok(None);
    }
  }

  /** Capitalising keeps a frame conforming, and moving "timestamp" of the
   *  restamped frame into the index gives `Normalised`. */
  lemma NormalisedSteps(fetched: Frame)
    requires Conforming(fetched)
    ensures Conforming(RenameColumns(fetched, CAPITALISE))
    ensures SetIndexOf(Restamped(RenameColumns(fetched, CAPITALISE)), "timestamp") == Ok(Normalised(fetched))
  {
    var renamed := RenameColumns(fetched, CAPITALISE);
    forall i | 0 <= i < |renamed.columns|
      ensures renamed.columns[i].name != "index" && renamed.columns[i].name != "timestamp"
    {
      assert fetched.columns[i].name != "index" && fetched.columns[i].name != "timestamp";
    }
    var restamped := Restamped(renamed);
    assert Find(restamped.columns, "timestamp") == Some(0);
    assert restamped.columns[..0] + restamped.columns[1..] == renamed.columns;
  }

  /** With the five lower-case OHLCV columns the Dukascopy client returns, the
   *  frame has exactly the columns Open, High, Low, Close, Volume and an index
   *  named "timestamp". */
  lemma TestColumnNames(fetched: Frame)
    requires Conforming(fetched)
    requires Names(fetched.columns) == ["open", "high", "low", "close", "volume"]
    ensures Names(Normalised(fetched).columns) == ["Open", "High", "Low", "Close", "Volume"]
    ensures Normalised(fetched).index.name == Some("timestamp")
  {
    var r := Normalised(fetched);
    assert fetched.columns[0].name == "open";
    assert fetched.columns[1].name == "high";
    assert fetched.columns[2].name == "low";
    assert fetched.columns[3].name == "close";
    assert fetched.columns[4].name == "volume";
  }

  /** The test's date strings parse to the dates they spell. */
  lemma TestDatesParse()
    ensures ParseYmd("2024-01-01") == Some(Date(2024, 1, 1))
    ensures ParseYmd("2024-01-07") == Some(Date(2024, 1, 7))
  {
    var first := "2024-01-01";
    assert first[5..] == "01-01";
    assert MatchMonth(first[5..]) == Some((1, "01"));
    var last := "2024-01-07";
    assert last[5..] == "01-07";
    assert MatchMonth(last[5..]) == Some((1, "07"));
  }

  /** The date window of the download test: 2024-01-01 and 2024-01-07 start
   *  at 21:00 UTC on the day before, and a bar starting at 23:00 UTC on
   *  2024-01-01 is labelled 02:00 on 2024-01-02. */
  lemma TestWindowBounds()
    ensures DateBound(Some("2024-01-01")) == Ok(Some(1704056400))
    ensures DateBound(Some("2024-01-07")) == Ok(Some(1704574800))
    ensures ShiftToUtcPlus3([Instant(1704150000)]) == Ok([Instant(1704160800)])
  {
    TestDatesParse();
    assert DaysBeforeYear(2024) == 738885;
    assert EpochDay(Date(2024, 1, 1)) == 19723;
    assert EpochDay(Date(2024, 1, 7)) == 19729;
    var shifted := ShiftToUtcPlus3([Instant(1704150000)]);
    assert shifted.Ok? && |shifted.value| == 1;
    assert shifted.value[0] == Instant(1704160800);
    assert shifted.value == [Instant(1704160800)];
  }
}
