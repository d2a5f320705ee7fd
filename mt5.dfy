/** What both MT5 downloaders (algotrader/fetch/mt5.py and fetch/mt5.py)
 *  share: the timeframe table and its reverse lookup, the choice of fetch
 *  call, the rate records the terminal returns, and the Postgres table keyed
 *  by bar time that they upsert into row by row. */
module Mt5 {
  import opened Common
  import Dates

  /** The `mt5.TIMEFRAME_*` constants, held symbolically: the terminal's
   *  numeric values for the nine are pairwise distinct, as constructors are. */
  datatype Timeframe = M1 | M5 | M15 | M30 | H1 | H4 | D1 | W1 | MN1

  /** `TIMEFRAMES.items()`, in insertion order. */
  const TIMEFRAME_ITEMS: seq<(string, Timeframe)> :=
    [("M1", M1), ("M5", M5), ("M15", M15), ("M30", M30), ("H1", H1),
     ("H4", H4), ("D1", D1), ("W1", W1), ("MN1", MN1)]

  /** `TIMEFRAMES`: timeframe name to MT5 constant. */
  const TIMEFRAMES: map<string, Timeframe> :=
    map["M1" := M1, "M5" := M5, "M15" := M15, "M30" := M30, "H1" := H1,
        "H4" := H4, "D1" := D1, "W1" := W1, "MN1" := MN1]

  /** `{v: k for k, v in items}`: later items overwrite earlier ones. */
  function Invert(items: seq<(string, Timeframe)>): (r: map<Timeframe, string>)
    ensures r.Keys == set i | 0 <= i < |items| :: items[i].1
  {
    if items == [] then map[]
    else
      var init := items[..|items| - 1];
      assert (set i | 0 <= i < |items| :: items[i].1)
          == (set i | 0 <= i < |init| :: init[i].1) + {items[|items| - 1].1};
      Invert(init)[items[|items| - 1].1 := items[|items| - 1].0]
  }

  /** `TIMEFRAME_NAMES`: MT5 constant back to its name. */
  const TIMEFRAME_NAMES: map<Timeframe, string> := Invert(TIMEFRAME_ITEMS)

  /** When no two items share a value, inverting sends each value back to its
   *  own key. */
  lemma {:induction false} InvertDistinct(items: seq<(string, Timeframe)>)
    requires forall i, j :: 0 <= i < j < |items| ==> items[i].1 != items[j].1
    ensures forall i :: 0 <= i < |items| ==> items[i].1 in Invert(items) && Invert(items)[items[i].1] == items[i].0
  {
    if items != [] {
      var init, last := items[..|items| - 1], items[|items| - 1];
      InvertDistinct(init);
      assert Invert(items) == Invert(init)[last.1 := last.0];
      forall i | 0 <= i < |items|
        ensures items[i].1 in Invert(items) && Invert(items)[items[i].1] == items[i].0
      {
        if i < |init| {
          assert init[i] == items[i] && items[i].1 != last.1;
        }
      }
    }
  }

  /** The items list and the dict literal agree. */
  lemma ItemsMatchTable()
    ensures forall i :: 0 <= i < |TIMEFRAME_ITEMS| ==>
      TIMEFRAME_ITEMS[i].0 in TIMEFRAMES && TIMEFRAMES[TIMEFRAME_ITEMS[i].0] == TIMEFRAME_ITEMS[i].1
    ensures forall name :: name in TIMEFRAMES ==> exists i :: 0 <= i < |TIMEFRAME_ITEMS| && TIMEFRAME_ITEMS[i].0 == name
  {
    forall name | name in TIMEFRAMES
      ensures exists i :: 0 <= i < |TIMEFRAME_ITEMS| && TIMEFRAME_ITEMS[i].0 == name
    {
      if name == "M1" { assert TIMEFRAME_ITEMS[0].0 == name; }
      else if name == "M5" { assert TIMEFRAME_ITEMS[1].0 == name; }
      else if name == "M15" { assert TIMEFRAME_ITEMS[2].0 == name; }
      else if name == "M30" { assert TIMEFRAME_ITEMS[3].0 == name; }
      else if name == "H1" { assert TIMEFRAME_ITEMS[4].0 == name; }
      else if name == "H4" { assert TIMEFRAME_ITEMS[5].0 == name; }
      else if name == "D1" { assert TIMEFRAME_ITEMS[6].0 == name; }
      else if name == "W1" { assert TIMEFRAME_ITEMS[7].0 == name; }
      else { assert TIMEFRAME_ITEMS[8].0 == name; }
    }
  }

  /** Every constant is named in `TIMEFRAME_NAMES`. */
  lemma NamesCoverTimeframes()
    ensures forall tf: Timeframe :: tf in TIMEFRAME_NAMES
  {
    forall tf: Timeframe ensures tf in TIMEFRAME_NAMES {
      var i := match tf
        case M1 => 0 case M5 => 1 case M15 => 2 case M30 => 3 case H1 => 4
        case H4 => 5 case D1 => 6 case W1 => 7 case MN1 => 8;
      assert TIMEFRAME_ITEMS[i].1 == tf;
    }
  }

  /** Each item's constant names that item. */
  lemma NamesInvertItems()
    ensures forall i :: 0 <= i < |TIMEFRAME_ITEMS| ==>
      TIMEFRAME_ITEMS[i].1 in TIMEFRAME_NAMES && TIMEFRAME_NAMES[TIMEFRAME_ITEMS[i].1] == TIMEFRAME_ITEMS[i].0
  {
    InvertDistinct(TIMEFRAME_ITEMS);
  }

  /** `TIMEFRAME_NAMES` inverts `TIMEFRAMES`: name to constant to name, and
   *  constant to name to constant, round-trip for all nine. */
  lemma TimeframeNamesRoundTrip()
    ensures forall name :: name in TIMEFRAMES ==>
      TIMEFRAMES[name] in TIMEFRAME_NAMES && TIMEFRAME_NAMES[TIMEFRAMES[name]] == name
    ensures forall tf :: tf in TIMEFRAME_NAMES ==>
      TIMEFRAME_NAMES[tf] in TIMEFRAMES && TIMEFRAMES[TIMEFRAME_NAMES[tf]] == tf
    ensures forall tf: Timeframe :: tf in TIMEFRAME_NAMES
  {
    NamesInvertItems();
    ItemsMatchTable();
    NamesCoverTimeframes();
    forall tf | tf in TIMEFRAME_NAMES
      ensures TIMEFRAME_NAMES[tf] in TIMEFRAMES && TIMEFRAMES[TIMEFRAME_NAMES[tf]] == tf
    {
      var i :| 0 <= i < |TIMEFRAME_ITEMS| && TIMEFRAME_ITEMS[i].1 == tf;
    }
  }

  /** `if timeframe not in TIMEFRAMES: raise ValueError(...)`; otherwise the
   *  constant `TIMEFRAMES[timeframe]`. Case matters: "m5" is rejected. */
  function ValidateTimeframe(timeframe: string): (r: Result<Timeframe>)
    ensures r.Ok? <==> timeframe in ["M1", "M5", "M15", "M30", "H1", "H4", "D1", "W1", "MN1"]
    ensures r.Err? ==> r.error == ValueError
    ensures r.Ok? ==> r.value in TIMEFRAME_NAMES && TIMEFRAME_NAMES[r.value] == timeframe
  {
    TimeframeNamesRoundTrip();
    if timeframe in TIMEFRAMES then Ok(TIMEFRAMES[timeframe]) else Err(ValueError)
  }

  // ---------------------------------------------------------------------
  // Choice of fetch call
  // ---------------------------------------------------------------------

  /** The three ways the downloaders ask the terminal for bars; instants in
   *  seconds. */
  datatype FetchRequest =
    | CopyRatesRange(symbol: string, timeframe: Timeframe, from: int, to: int)
    | CopyRatesFrom(symbol: string, timeframe: Timeframe, start: int, count: int)
    | CopyRatesFromPos(symbol: string, timeframe: Timeframe, pos: int, count: int)

  /** What `get_latest_timestamp` gives: the newest stored bar time, nothing
   *  (empty table), or a query the database rejects. */
  datatype LatestStored = Stored(ts: int) | NothingStored | QueryFailed

  /** The latest stored timestamp is asked for only when the range is not
   *  given at both ends. */
  predicate QueriesLatest(from: Option<int>, to: Option<int>)
  {
    !(from.Some? && to.Some?)
  }

  /** Case 1, both bounds: a range fetch. Case 2, otherwise: from one second
   *  after the newest stored bar when there is one, else the newest `n` bars
   *  from position 0. */
  function SelectFetch(symbol: string, tf: Timeframe, from: Option<int>, to: Option<int>,
                       latest: LatestStored, n: int): (r: Result<FetchRequest>)
    ensures !QueriesLatest(from, to) ==> r == Ok(CopyRatesRange(symbol, tf, from.value, to.value))
    ensures QueriesLatest(from, to) && latest.Stored? ==>
      r.Ok? && r.value.CopyRatesFrom? && r.value.start > latest.ts && r.value.start - latest.ts == 1
      && r.value.symbol == symbol && r.value.timeframe == tf && r.value.count == n
    ensures QueriesLatest(from, to) && latest.NothingStored? ==> r == Ok(CopyRatesFromPos(symbol, tf, 0, n))
    ensures r.Err? <==> QueriesLatest(from, to) && latest.QueryFailed?
  {
    if from.Some? && to.Some? then Ok(CopyRatesRange(symbol, tf, from.value, to.value))
    else match latest
      case Stored(ts) => Ok(CopyRatesFrom(symbol, tf, ts + 1, n))
      case NothingStored => Ok(CopyRatesFromPos(symbol, tf, 0, n))
      case QueryFailed => Err(DatabaseError)
  }

  // ---------------------------------------------------------------------
  // Rates and the keyed table
  // ---------------------------------------------------------------------

  /** One record of the array `copy_rates_*` returns; `time` in epoch seconds. */
  datatype Rate = Rate(time: int, open: real, high: real, low: real, close: real,
                       tickVolume: int, spread: int, realVolume: int)

  /** A timezone-aware pandas timestamp: an instant shown in a zone. */
  datatype ZonedTime = ZonedTime(instant: int, offset: int)
  {
    /** The local clock reading the zone shows. */
    function WallClock(): int
    {
      instant + offset
    }
  }

  /** `pd.to_datetime(time, unit="s", utc=True).dt.tz_convert("Etc/GMT-3")`:
   *  the same instant, displayed three hours ahead. */
  function ToUtcPlus3(time: int): (z: ZonedTime)
    ensures z.instant == time
    ensures z.WallClock() == time + 10800
  {
    ZonedTime(time, UTC_PLUS_3)
  }

  /** A bar of the downloaded frame: its converted timestamp and its record. */
  datatype Bar = Bar(timestamp: ZonedTime, rate: Rate)

  function Bars(rates: seq<Rate>): (bars: seq<Bar>)
    ensures |bars| == |rates|
    ensures forall i :: 0 <= i < |rates| ==> bars[i].rate == rates[i] && bars[i].timestamp.instant == rates[i].time
  {
    seq(|rates|, i requires 0 <= i < |rates| => Bar(ToUtcPlus3(rates[i].time), rates[i]))
  }

  /** The seven value columns of a stored row; the key is the bar's instant. */
  datatype Row = Row(open: real, high: real, low: real, close: real,
                     volume: int, spread: int, volumeReal: int)

  /** The parameters of one INSERT ... ON CONFLICT: key and row. */
  function UpsertEntry(rate: Rate): (e: (int, Row))
    ensures e.0 == rate.time
    ensures e.1.open == rate.open && e.1.high == rate.high && e.1.low == rate.low && e.1.close == rate.close
    ensures e.1.volume == rate.tickVolume && e.1.spread == rate.spread && e.1.volumeReal == rate.realVolume
  {
    (ToUtcPlus3(rate.time).instant,
     Row(rate.open, rate.high, rate.low, rate.close, rate.tickVolume, rate.spread, rate.realVolume))
  }

  function Entries(rates: seq<Rate>): (es: seq<(int, Row)>)
    ensures |es| == |rates|
    ensures forall i :: 0 <= i < |rates| ==> es[i] == UpsertEntry(rates[i])
  {
    seq(|rates|, i requires 0 <= i < |rates| => UpsertEntry(rates[i]))
  }

  /** The table after executing the upserts of `batch` one after another. */
  function Upserted(table: map<int, Row>, batch: seq<(int, Row)>): (r: map<int, Row>)
    ensures table.Keys <= r.Keys
    ensures forall j :: 0 <= j < |batch| ==> batch[j].0 in r
  {
    if batch == [] then table
    else Upserted(table, batch[..|batch| - 1])[batch[|batch| - 1].0 := batch[|batch| - 1].1]
  }

  /** Last write wins: a key of the batch holds the values of its last row. */
  lemma {:induction false} UpsertLastWriteWins(table: map<int, Row>, batch: seq<(int, Row)>, i: int)
    requires 0 <= i < |batch|
    requires forall j :: i < j < |batch| ==> batch[j].0 != batch[i].0
    ensures batch[i].0 in Upserted(table, batch)
    ensures Upserted(table, batch)[batch[i].0] == batch[i].1
  {
    if i < |batch| - 1 {
      UpsertLastWriteWins(table, batch[..|batch| - 1], i);
    }
  }

  /** A key the batch does not mention keeps its row, or stays absent. */
  lemma {:induction false} UpsertKeepsOtherKeys(table: map<int, Row>, batch: seq<(int, Row)>, k: int)
    requires forall j :: 0 <= j < |batch| ==> batch[j].0 != k
    ensures k in Upserted(table, batch) <==> k in table
    ensures k in table ==> Upserted(table, batch)[k] == table[k]
  {
    if batch != [] {
      UpsertKeepsOtherKeys(table, batch[..|batch| - 1], k);
    }
  }

  /** The table's keys afterwards are its old keys plus the batch's keys. */
  lemma {:induction false} UpsertedKeys(table: map<int, Row>, batch: seq<(int, Row)>)
    ensures Upserted(table, batch).Keys == table.Keys + set j | 0 <= j < |batch| :: batch[j].0
  {
    if batch != [] {
      var init := batch[..|batch| - 1];
      UpsertedKeys(table, init);
      assert (set j | 0 <= j < |batch| :: batch[j].0)
          == (set j | 0 <= j < |init| :: init[j].0) + {batch[|batch| - 1].0};
    }
  }

  /** Downloading the same bars twice leaves the table as one download does:
   *  the upsert is idempotent. */
  lemma {:induction false} UpsertTwiceSame(table: map<int, Row>, batch: seq<(int, Row)>)
    ensures Upserted(Upserted(table, batch), batch) == Upserted(table, batch)
  {
    var once := Upserted(table, batch);
    var twice := Upserted(once, batch);
    UpsertedKeys(table, batch);
    UpsertedKeys(once, batch);
    forall k | k in twice ensures k in once && twice[k] == once[k] {
      if j :| 0 <= j < |batch| && batch[j].0 == k {
        var last := LastIndexOf(batch, k, j);
        UpsertLastWriteWins(table, batch, last);
        UpsertLastWriteWins(once, batch, last);
      } else {
        UpsertKeepsOtherKeys(once, batch, k);
      }
    }
  }

  /** The last position of key `k` in the batch, at or after `j`. */
  lemma {:induction false} LastIndexOf(batch: seq<(int, Row)>, k: int, j: int) returns (last: int)
    requires 0 <= j < |batch| && batch[j].0 == k
    ensures j <= last < |batch| && batch[last].0 == k
    ensures forall m :: last < m < |batch| ==> batch[m].0 != k
    decreases |batch| - j
  {
    if m :| j < m < |batch| && batch[m].0 == k {
      last := LastIndexOf(batch, k, m);
    } else {
      last := j;
    }
  }

  /** A Postgres table keyed by bar time. */
  class PgTable {
    var rows: map<int, Row>

    constructor (initial: map<int, Row>)
      ensures rows == initial
    {
      rows := initial;
    }

    /** One `INSERT ... ON CONFLICT (key) DO UPDATE SET` every value column. */
    method Upsert(key: int, row: Row)
      modifies this
      ensures rows == old(rows)[key := row]
    {
      rows := rows[key := row];
    }
  }

  /** `for _, row in df.iterrows(): cur.execute(INSERT ... ON CONFLICT ...)`:
   *  one upsert per bar, in order. */
  method UpsertRates(db: PgTable, rates: seq<Rate>)
    modifies db
    ensures db.rows == Upserted(old(db.rows), Entries(rates))
  {
    var i := 0;
    while i < |rates|
      invariant 0 <= i <= |rates|
      invariant db.rows == Upserted(old(db.rows), Entries(rates)[..i])
    {
      var (key, row) := UpsertEntry(rates[i]);
      db.Upsert(key, row);
      assert Entries(rates)[..i + 1][..i] == Entries(rates)[..i];
      i := i + 1;
    }
    assert Entries(rates)[..|rates|] == Entries(rates);
  }

  /** Calls the downloaders make on the terminal, the database and the file
   *  system, in order. */
  datatype Mt5Call =
    | Initialize
    | Connect
    | EnsureSchema(schema: string, table: string)
    | QueryLatest(schema: string, table: string)
    | Fetch(request: FetchRequest)
    | Shutdown
    | WriteParquet(path: string, bars: seq<Bar>)
    | Commit
    | CloseConnection

  /** What `download_mt5` returns when it does not raise. */
  datatype Downloaded = EmptyFrame | NoneReturned

  /** Everything one `download_mt5` call decides: its result, its calls, and
   *  the rows it upserts, in order. */
  datatype Session = Session(result: Result<Downloaded>, calls: seq<Mt5Call>, upserts: seq<(int, Row)>)

  /** How the part of `download_mt5` before the fetch ends: raising, or
   *  about to send `request`; `calls` are the calls made so far. */
  datatype FetchPhase =
    | Stopped(error: Error, calls: seq<Mt5Call>)
    | Fetching(request: FetchRequest, calls: seq<Mt5Call>)

  /** Whether `CREATE SCHEMA IF NOT EXISTS schema` and `CREATE TABLE IF NOT
   *  EXISTS schema.table (...)` go through. A name that is not a plain
   *  identifier is a syntax error; for plain names `accepted` is the
   *  database's answer (a reserved word, permissions, a lost connection). */
  predicate SchemaCreated(schema: string, table: string, accepted: bool)
  {
    PlainIdentifier(schema) && PlainIdentifier(table) && accepted
  }

  /** The column the latest-timestamp query reads: `SELECT MAX(time)`. */
  const QUERIED_COLUMN: string := "time"

  /** What the latest-timestamp query gives against a table whose bar-time
   *  column is `timeColumn`: a failed query when that is not the column the
   *  query reads, and otherwise the database's answer `latest`. */
  function LatestAnswer(timeColumn: string, latest: LatestStored): (r: LatestStored)
    ensures r.QueryFailed? <==> timeColumn != QUERIED_COLUMN || latest.QueryFailed?
    ensures r.QueryFailed? || r == latest
  {
    if timeColumn == QUERIED_COLUMN then latest else QueryFailed
  }

  /** Validate the timeframe, initialise the terminal, connect and create the
   *  schema and table named `schema`.`table`, whose bar-time column is
   *  `timeColumn`, read the date bounds, and pick the fetch call. `initOk` is
   *  what `mt5.initialize()` answers, `schemaOk` whether the database accepts
   *  the creation of plainly named objects, and `latest` what the
   *  latest-timestamp query gives when the table has the column it reads. */
  function BeforeFetch(symbol: string, timeframe: string, schema: string, table: string, timeColumn: string, n: int,
                       dateFrom: Option<string>, dateTo: Option<string>,
                       initOk: bool, schemaOk: bool, latest: LatestStored): (p: FetchPhase)
    ensures ValidateTimeframe(timeframe).Err? ==> p == Stopped(ValueError, [])
    ensures p.calls != [] ==> p.calls[0] == Initialize
    ensures Connect in p.calls ==> initOk && timeframe in TIMEFRAMES
    ensures p.Fetching? ==> Connect in p.calls
    ensures ValidateTimeframe(timeframe).Ok? && !initOk ==> p == Stopped(RuntimeError, [Initialize])
    ensures ValidateTimeframe(timeframe).Ok? && initOk ==>
      |p.calls| >= 3 && p.calls[..3] == [Initialize, Connect, EnsureSchema(schema, table)]
    ensures ValidateTimeframe(timeframe).Ok? && initOk && !SchemaCreated(schema, table, schemaOk) ==>
      p == Stopped(DatabaseError, [Initialize, Connect, EnsureSchema(schema, table)])
    ensures ValidateTimeframe(timeframe).Ok? && initOk && SchemaCreated(schema, table, schemaOk)
            && Dates.DateBounds(dateFrom, dateTo).Err? ==>
      p == Stopped(Dates.DateBounds(dateFrom, dateTo).error, [Initialize, Connect, EnsureSchema(schema, table)])
    ensures p.Fetching? <==>
      ValidateTimeframe(timeframe).Ok? && initOk && SchemaCreated(schema, table, schemaOk)
      && Dates.DateBounds(dateFrom, dateTo).Ok?
      && !(QueriesLatest(Dates.DateBounds(dateFrom, dateTo).value.0, Dates.DateBounds(dateFrom, dateTo).value.1)
           && LatestAnswer(timeColumn, latest).QueryFailed?)
    ensures p.Fetching? ==>
      var (from, to) := Dates.DateBounds(dateFrom, dateTo).value;
      p.request == SelectFetch(symbol, TIMEFRAMES[timeframe], from, to, LatestAnswer(timeColumn, latest), n).value
    ensures QueryLatest(schema, table) in p.calls <==>
      ValidateTimeframe(timeframe).Ok? && initOk && SchemaCreated(schema, table, schemaOk)
      && Dates.DateBounds(dateFrom, dateTo).Ok?
      && QueriesLatest(Dates.DateBounds(dateFrom, dateTo).value.0, Dates.DateBounds(dateFrom, dateTo).value.1)
    ensures p.Stopped? && QueryLatest(schema, table) in p.calls ==> p.error == DatabaseError
    ensures timeColumn != QUERIED_COLUMN && QueryLatest(schema, table) in p.calls ==>
      p == Stopped(DatabaseError, [Initialize, Connect, EnsureSchema(schema, table), QueryLatest(schema, table)])
  {
    match ValidateTimeframe(timeframe)
    case Err(e) => Stopped(e, [])
    case Ok(tf) =>
      if !initOk then Stopped(RuntimeError, [Initialize])
      else
        var connected := [Initialize, Connect, EnsureSchema(schema, table)];
        if !SchemaCreated(schema, table, schemaOk) then Stopped(DatabaseError, connected)
        else match Dates.DateBounds(dateFrom, dateTo)
          case Err(e) => Stopped(e, connected)
          case Ok((from, to)) =>
            var queried := connected + (if QueriesLatest(from, to) then [QueryLatest(schema, table)] else []);
            match SelectFetch(symbol, tf, from, to, LatestAnswer(timeColumn, latest), n)
            case Err(e) => Stopped(e, queried)
            case Ok(request) => Fetching(request, queried)
  }
}
