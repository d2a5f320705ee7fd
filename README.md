# algotrader core, modelled in Dafny

This project models the decision-making core of the algotrader toolkit. The
toolkit downloads OHLCV bars from Dukascopy and from a MetaTrader 5 (MT5)
terminal. It stores them in parquet files or in Postgres. It prepares them
for the backtesting.py engine, and it turns strategy signals into engine
actions or live MT5 orders.

The terminal, the Dukascopy client, the database and the file system are
not modelled as systems. Each call to them is recorded in order in a call
log. Each answer they give is a parameter of the model: whether
`mt5.initialize()` succeeds, whether the database creates a plainly named
schema and table, the latest stored timestamp, and the bars fetched. Where
the code itself decides the answer, the model decides it too. A schema name
that cannot stand unquoted is a syntax error, and a query on a column the
table lacks fails.

Modules, one per file:

- `Common` holds `Option`, `Result`, the exception kinds raised, the UTC+3 offset (10800 s), ASCII `lower()` and the rule for an identifier Postgres accepts unquoted.
- `Utils` is `strip_string_list_comp` (utils.py), with its filtering laws.
- `Naming` is the storage name `<stripped symbol>_<timeframe>`, lower-cased, which both the Dukascopy parquet file and the MT5 parquet file use. It splits back into its two parts unambiguously.
- `Dates` is `datetime.strptime(s, "%Y-%m-%d")`, read as midnight at UTC+3 and converted to UTC. Its regular-expression alternatives and date validation are those of CPython's `_strptime`. Calendar days are counted the way `date.toordinal` counts them.
- `Frames` models the pandas operations the downloaders use: `df[col]`, `rename`, `reset_index`, `set_index`, column assignment and the UTC+3 shift. They are pure functions, and a `DataFrame` class applies them in place.
- `DukascopyCommon`, `Dukascopy` and `LegacyDukascopy` model `download_dukascopy` in algotrader/fetch/dukascopy_data.py and in the older fetch/dukascopy_data.py.
- `Mt5`, `Mt5Download` and `LegacyMt5Download` model the timeframe table and its reverse map, the choice of fetch call, and the row-by-row keyed upsert. The upsert is a loop over a `PgTable` whose rows are a map keyed by bar instant. These modules also model both `download_mt5` variants.
- `Backtest` models `prepare_backtest_df`, the per-step signal dispatch of `StrategyWrapper.next` (its ledger is a list of actions), and the SMA-cross rule of the tests.
- `LiveTrade` models `run_mt5`: signal to order request, at most one order.

The model follows the code as written:

- A missing column or signal key raises `KeyError`.
- An unknown timeframe raises `ValueError`.
- An unknown `save_mode` is not an error: nothing is saved and None is returned.
- Column names are matched exactly, with case.
- Each backtest step builds a fresh strategy object (`strategy_class()`) and passes it the window and the position. The live run passes its strategy only the frame.
- A batch with repeated bar times is accepted, and the last row wins.
- Two columns sharing a label are not merged. `df[name] = cells` writes the cells into every column of that label. `prepare_backtest_df` raises ValueError when one of its five labels is shared, and the Dukascopy shift raises ValueError when "timestamp" is.
- The MT5 schema and table names are spliced into the SQL text unquoted. A symbol such as "#" (empty schema name), "1INCH" (leading digit) or, in the older downloader, "XAUUSD#" makes `CREATE SCHEMA` fail, and the download stops after connecting.
- The Dukascopy table name is spliced into `CREATE TABLE` unquoted too, for every frame. A given name such as "my-table", or the default name "1inch_m5" of symbol "1INCH", makes the postgres mode raise even when the fetch returned no rows. A schema-qualified name such as "public.eurusd_m1" is accepted.
- The table the current MT5 downloader creates names its bar-time column `timestamp`, but the latest-timestamp query reads `MAX(time)`. So whenever a date bound is missing, that download raises a database error before fetching. The older downloader's table has a `time` column.
- The date 0001-01-01 parses, but moving its midnight at UTC+3 to UTC falls before year 1, so `astimezone` raises `OverflowError`.
- `save_to_postgres` in algotrader/fetch/dukascopy_data.py names a conflict target `time` that is not a column of the table it creates. Its rows also carry the frame's five value columns against a six-column target list. So the database rejects every non-empty frame, and the postgres mode of that download raises for every frame with rows. An empty frame is saved without error exactly when its table could be created.

## Model

| member | source | states |
|---|---|---|
| Common.Lower | algotrader/fetch/mt5.py:42-43 | `lower()` keeps the length and lower-cases each character |
| Utils.Strip | utils.py:1-3 | the result is no longer than the input and is entirely alphanumeric |
| Utils.StripConcat | utils.py:1-3 | stripping works character by character: strip(a + b) == strip(a) + strip(b) |
| Utils.StripIsSubsequence | utils.py:1-3 | the kept characters appear in their original order |
| Utils.StripCounts | utils.py:1-3 | every alphanumeric character is kept as often as it occurs, every other character is dropped |
| Utils.StripKeepsAlnum | utils.py:1-3 | an all-alphanumeric string is unchanged |
| Utils.StripIdempotent | utils.py:1-3 | stripping twice is stripping once |
| Utils.StripLengthIff | utils.py:1-3 | the length is kept exactly when every character is alphanumeric |
| Utils.StripShrinks | utils.py:1-3 | a string with any non-alphanumeric character gets strictly shorter |
| Utils.StripNoAlnum | utils.py:1-3 | a string without alphanumerics strips to "" |
| Naming.LowerStrippedHasNoUnderscore | algotrader/fetch/dukascopy_data.py:61-64 | the symbol part of the storage name is alphanumeric and contains no `_` |
| Naming.StorageName | algotrader/fetch/dukascopy_data.py:61-64 | the storage name splits at its first `_` back into the stripped lower-cased symbol and the lower-cased timeframe, and is one character longer than the two together |
| Naming.StorageNameInjective | algotrader/fetch/dukascopy_data.py:61-64 | two symbol/timeframe pairs share a storage name only when their stripped lower-cased symbols and their lower-cased timeframes agree |
| Dates.ParseYmd | algotrader/fetch/mt5.py:94-95 | whatever strptime accepts is a valid calendar date in years 1..9999 |
| Dates.DateBound | algotrader/fetch/mt5.py:94-103 | no bound exactly when the argument is missing or empty; ValueError exactly when strptime rejects it; OverflowError exactly when it is 0001-01-01; a bound lies exactly 3 hours before a UTC midnight |
| Dates.DateBounds | algotrader/fetch/mt5.py:94-103 | both arguments are parsed before either is converted: an unparsable one on either side gives ValueError, otherwise an overflow gives OverflowError, otherwise the pair of bounds |
| Dates.EarliestBounds | algotrader/fetch/mt5.py:98-103 | 0001-01-01 overflows, and 0001-01-02 is the earliest date with a bound, -62135521200 |
| Dates.ParseBeforeConvert | algotrader/fetch/mt5.py:94-103 | with 0001-01-01 as start, a malformed end date still gives ValueError, and a missing end date gives OverflowError |
| Dates.ParseFormatRoundTrip | algotrader/fetch/mt5.py:94-95 | every valid date, written as YYYY-MM-DD, parses back to itself |
| Dates.BoundOfDate | algotrader/fetch/mt5.py:94-103 | the bound for the canonical spelling of a date is that date's UTC midnight minus 10800 s, except 0001-01-01, which overflows |
| Dates.NextDayIsOneDayLater | algotrader/fetch/dukascopy_data.py:24-34 | consecutive dates are one day apart and 1970-01-01 is day 0, which pins the epoch-day count on every date |
| Dates.DaysBeforeYearStep | algotrader/fetch/dukascopy_data.py:24-34 | the day count before year y+1 is that before y plus the length of y, leap years included |
| Dates.BoundMonotone | fetch/dukascopy_data.py:23-33 | an earlier date gives a strictly earlier bound |
| Frames.Find | algotrader/fetch/dukascopy_data.py:58 | the position found holds the first column of that name; none means no column has it |
| Frames.Get | algotrader/fetch/dukascopy_data.py:58 | `df[name]` raises KeyError exactly when no column has that name, and otherwise gives the cells of the first column of that name, one per row |
| Frames.RenameColumns | algotrader/fetch/dukascopy_data.py:45-51 | renamed columns take the mapped name, the others keep theirs; cells, order and index unchanged |
| Frames.ResetIndexOf | algotrader/fetch/dukascopy_data.py:54 | the index becomes a new first column holding its values, over a fresh RangeIndex; it is named after the index, or "index" when unnamed, or "level_0" when unnamed and "index" is taken; ValueError exactly when the chosen name is already a column |
| Frames.SetIndexOf | algotrader/fetch/dukascopy_data.py:59 | a missing column raises KeyError naming it; otherwise the index carries that name and holds the column's cells, and the other columns remain in order |
| Frames.AssignColumn | algotrader/fetch/dukascopy_data.py:58 | after `df[name] = cells`, reading `df[name]` gives those cells; every column of that name is overwritten in place, or the column is appended when there is none; every other column and the index are unchanged |
| Frames.ShiftToUtcPlus3 | algotrader/fetch/dukascopy_data.py:58 | succeeds exactly when every cell is an instant, moving each one 10800 s later; otherwise a conversion error |
| Frames.ShiftKeepsOrder | algotrader/fetch/dukascopy_data.py:58 | the shift keeps the order of timestamps and keeps distinct timestamps distinct |
| Frames.DataFrame.ResetIndex | algotrader/fetch/dukascopy_data.py:54 | in place: the frame becomes `ResetIndexOf` of the old frame, or is unchanged with the error |
| Frames.DataFrame.Rename | algotrader/fetch/dukascopy_data.py:55 | in place: the frame becomes the renamed old frame |
| Frames.DataFrame.Assign | algotrader/fetch/dukascopy_data.py:58 | in place: the frame becomes the old frame with the column assigned |
| Frames.DataFrame.SetIndex | algotrader/fetch/dukascopy_data.py:59 | in place: the frame becomes `SetIndexOf` of the old frame, or is unchanged with the error |
| DukascopyCommon.Expose | fetch/dukascopy_data.py:52-54 | in place: `reset_index` then renaming "index" to "timestamp" turn a conforming frame into one whose first column "timestamp" holds the bar starts; the only error is ValueError |
| DukascopyCommon.Restamped | fetch/dukascopy_data.py:52-57 | for a conforming fetch result: a first column "timestamp" of bar starts shifted by 3 h, then the original columns, over a RangeIndex |
| DukascopyCommon.ResetStep | fetch/dukascopy_data.py:53 | `reset_index` on a conforming fetch result succeeds and exposes the bar starts as "index" or "timestamp" |
| DukascopyCommon.RenameStep | fetch/dukascopy_data.py:54 | renaming "index" to "timestamp" touches only that first column |
| DukascopyCommon.AssignStep | fetch/dukascopy_data.py:57 | reading "timestamp" yields the bar starts, and writing the shifted instants back gives `Restamped` |
| DukascopyCommon.Restamp | fetch/dukascopy_data.py:52-57 | the in-place reset, rename and shift turn a conforming frame into `Restamped`, and leave a "timestamp" column whenever they succeed; the errors are ValueError (including a "timestamp" label shared by several columns), KeyError or a conversion error |
| Dukascopy.Normalised | algotrader/fetch/dukascopy_data.py:44-59 | same cells; lower-case OHLCV names capitalised, other names kept; index named "timestamp" holding each bar start + 3 h |
| Dukascopy.NormalisedSteps | algotrader/fetch/dukascopy_data.py:44-59 | capitalising keeps a fetch result conforming, and `set_index("timestamp")` on the restamped frame is `Normalised` |
| Dukascopy.Normalise | algotrader/fetch/dukascopy_data.py:44-59 | the in-place steps produce `Normalised` for a conforming fetch result; any success is indexed by "timestamp" |
| Dukascopy.SaveCalls | algotrader/fetch/dukascopy_data.py:66-75 | parquet writes the frame to the named file, postgres hands it to `save_to_postgres`, every other mode writes nothing |
| Dukascopy.PostgresAccepts | algotrader/fetch/dukascopy_data.py:78-119 | the conflict target is not a column of the created table, so the database accepts `save_to_postgres(frame, table)` exactly when `CREATE TABLE` succeeds (a name of one to three plain identifiers joined by dots, and the database's answer) and the frame has no rows |
| Dukascopy.BadStartNotDotted | algotrader/fetch/dukascopy_data.py:86-96 | a table name whose first character cannot start an identifier is never parsed as one, however many parts it has |
| Dukascopy.LeadingDigitTableRefused | algotrader/fetch/dukascopy_data.py:86-96 | a symbol whose first letter or digit is a digit gives a default table name that `CREATE TABLE` refuses |
| Dukascopy.TableNameExamples | algotrader/fetch/dukascopy_data.py:86-96 | "my-table" is refused and the schema-qualified "public.eurusd_m1" is accepted |
| Dukascopy.PostgresRejectsEveryRow | algotrader/fetch/dukascopy_data.py:78-119 | the database accepts a normalised frame exactly when its table is created and it has no rows; a five-column fetch result is also short of the six-column target list |
| Dukascopy.DownloadDukascopy | algotrader/fetch/dukascopy_data.py:13-75 | a bad or overflowing date raises before any call; the fetch gets the UTC bounds; parquet and postgres receive the normalised frame under the given or storage name; a frame is returned only in "dataframe" mode; postgres raises a database error after the save call exactly when `CREATE TABLE` fails for that name or there are rows; any other mode saves nothing |
| Dukascopy.TestColumnNames | tests/test_dukascopy_download.py:29-33 | with the client's lower-case OHLCV columns the frame has exactly Open, High, Low, Close, Volume and an index named "timestamp" |
| Dukascopy.TestDatesParse | tests/test_dukascopy_download.py:9-10 | the test's start and end strings parse to 2024-01-01 and 2024-01-07 |
| Dukascopy.TestWindowBounds | tests/test_dukascopy_download.py:9-22 | those dates bound the fetch at 21:00 UTC the day before, and a 23:00 UTC bar is labelled 02:00 the next day |
| LegacyDukascopy.RenameIdentity | fetch/dukascopy_data.py:44-50 | the rename map sends each name to itself, so renaming changes nothing |
| LegacyDukascopy.DownloadDukascopy | fetch/dukascopy_data.py:12-65 | always returns None; a bad or overflowing date raises before any call; a conforming fetch result is written without its index, as `Restamped`, to the storage-name parquet file |
| Mt5.Invert | algotrader/fetch/mt5.py:23 | the keys of the reversed dict are exactly the values of the items |
| Mt5.InvertDistinct | algotrader/fetch/mt5.py:23 | inverting items with distinct values maps each value back to its key |
| Mt5.ItemsMatchTable | algotrader/fetch/mt5.py:10-20 | the items in insertion order are exactly the entries of the timeframe table |
| Mt5.TimeframeNamesRoundTrip | algotrader/fetch/mt5.py:10-23 | name to constant to name, and constant to name to constant, both round-trip for all nine timeframes |
| Mt5.ValidateTimeframe | algotrader/fetch/mt5.py:82-85 | accepted exactly for M1, M5, M15, M30, H1, H4, D1, W1 and MN1 (case-sensitive); otherwise ValueError; the reverse map names the result |
| Mt5.SelectFetch | algotrader/fetch/mt5.py:105-116 | both bounds give a range fetch; otherwise the fetch starts strictly after the newest stored bar (one second later), or at position 0 when nothing is stored; a failed query is a database error |
| Mt5.ToUtcPlus3 | algotrader/fetch/mt5.py:125-126 | the converted timestamp is the same instant, shown 3 h ahead |
| Mt5.Bars | algotrader/fetch/mt5.py:124-126 | one bar per rate, same record, timestamp at the rate's instant |
| Mt5.UpsertEntry | algotrader/fetch/mt5.py:148-152 | the key is the bar's instant and the seven value columns come from the rate (tick volume as Volume) |
| Mt5.Entries | algotrader/fetch/mt5.py:135-152 | one upsert per rate, in order |
| Mt5.Upserted | algotrader/fetch/mt5.py:134-152 | upserting a batch keeps every old key and adds every key of the batch |
| Mt5.UpsertLastWriteWins | algotrader/fetch/mt5.py:136-152 | after the upserts, each bar time in the batch holds the values of its last row |
| Mt5.UpsertKeepsOtherKeys | algotrader/fetch/mt5.py:136-152 | a key the batch does not mention keeps its row, or stays absent |
| Mt5.UpsertedKeys | algotrader/fetch/mt5.py:136-152 | the keys afterwards are the old keys plus the batch's keys |
| Mt5.UpsertTwiceSame | fetch/mt5.py:130-150 | upserting the same batch twice leaves the table as upserting it once |
| Mt5.PgTable.Upsert | algotrader/fetch/mt5.py:136-152 | one INSERT ... ON CONFLICT DO UPDATE sets the key's row, replacing any old one |
| Mt5.UpsertRates | algotrader/fetch/mt5.py:134-153 | the loop leaves the table equal to the old table with every rate's row upserted in order |
| Mt5.LatestAnswer | algotrader/fetch/mt5.py:63-68 | `SELECT MAX(time)` fails against a table without a `time` column, and otherwise gives the database's answer |
| Mt5.BeforeFetch | algotrader/fetch/mt5.py:82-116 | validation, then initialise (RuntimeError), then connect and create schema/table (a database error when a name cannot stand unquoted or the database refuses), then the date bounds (ValueError or OverflowError, as `DateBounds`), then the latest-stored query only when a bound is missing (a database error when it fails, always so when the table has no `time` column), then the fetch chosen by `SelectFetch` |
| Mt5Download.SchemaName | algotrader/fetch/mt5.py:42 | the schema is the stripped symbol in lower case: alphanumeric, with no upper-case letters, no longer than the symbol |
| Mt5Download.TableName | algotrader/fetch/mt5.py:43 | the table is the timeframe in lower case, same length |
| Mt5Download.ParquetPath | algotrader/fetch/mt5.py:130 | the parquet file has the storage name shared with the Dukascopy download, and splits back into schema and table |
| Mt5Download.SchemaNameIdempotent | algotrader/fetch/mt5.py:42 | a schema name, taken again as a symbol, names the same schema |
| Mt5Download.AfterFetch | algotrader/fetch/mt5.py:118-156 | after the fetch: shutdown; no bars closes the connection and gives an empty frame; parquet writes the bars and closes; postgres upserts every rate, commits and closes; any other mode returns None without saving or closing |
| Mt5Download.Plan | algotrader/fetch/mt5.py:71-156 | an invalid timeframe raises before any call; a failed initialise never connects or upserts; a schema or table that cannot be created stops the download right after `CREATE SCHEMA`; upserts happen only in postgres mode after a successful creation |
| Mt5Download.UnquotableSchemaStops | algotrader/fetch/mt5.py:42-46 | a symbol with no letter or digit, or whose first letter or digit is a digit, stops the download with a database error after connecting |
| Mt5Download.IncrementalDownloadFails | algotrader/fetch/mt5.py:48-68 | with a date bound missing, the latest-timestamp query reads a column the table lacks, so the download raises a database error and never fetches |
| Mt5Download.DownloadMt5 | algotrader/fetch/mt5.py:71-156 | result and calls are those of `Plan`, and the table afterwards is the old table with `Plan`'s rows upserted in order |
| Mt5Download.PostgresDownloadStores | algotrader/fetch/mt5.py:132-154 | after a postgres download each fetched bar time holds its last bar's values and every other key is unchanged |
| LegacyMt5Download.LegacySchemaName | fetch/mt5.py:40-43 | "gold#" in any case maps to "gold"; any other symbol is lower-cased and not stripped |
| LegacyMt5Download.LegacyTableName | fetch/mt5.py:44 | the table is "ohlc_" followed by the timeframe as given |
| LegacyMt5Download.LegacyNamesSeparate | fetch/mt5.py:40-44 | distinct timeframes get distinct tables, and GOLD#, Gold# and gold share the schema "gold" |
| LegacyMt5Download.LegacyAfterFetch | fetch/mt5.py:119-152 | after the fetch: shutdown; no bars closes and gives an empty frame; otherwise every rate is upserted, committed and the connection closed |
| LegacyMt5Download.LegacyHashSymbols | fetch/mt5.py:40-47 | "gold#" in any case becomes a schema name that can stand unquoted; any other symbol holding `#` keeps it and cannot |
| LegacyMt5Download.LegacyPlan | fetch/mt5.py:72-152 | an invalid timeframe raises before any call; a failed initialise never connects or upserts; a schema or table that cannot be created stops the download after `CREATE SCHEMA`; upserted rows are exactly the fetched rates' rows |
| LegacyMt5Download.LegacyDownloadMt5 | fetch/mt5.py:72-152 | result and calls are those of `LegacyPlan`, and the table afterwards is the old table with its rows upserted in order |
| Backtest.GetAll | trade/backtest.py:24-30 | columns are read left to right: success exactly when all exist, and otherwise KeyError names the first missing one |
| Backtest.PrepareBacktestDf | trade/backtest.py:17-42 | columns exactly Open..Volume, copied from the named columns with the same row count; index from `timestamp_col` when given and present, else a non-RangeIndex input index, both named "timestamp", else a RangeIndex; a missing column raises KeyError as `GetAll` does, then a label shared by several columns raises ValueError, then a shared or non-instant timestamp column fails conversion; success exactly when none of these happens |
| Backtest.RepeatedOpenRefused | trade/backtest.py:24-30 | a frame with two "Open" columns and all other default columns is refused with ValueError |
| Backtest.PrepareIdempotent | trade/backtest.py:17-42 | preparing a prepared frame again with the defaults returns it unchanged |
| Backtest.LookupAll | algotrader/trade/backtest.py:41-46 | keys are read in order: success exactly when all exist, and otherwise KeyError names the first missing one |
| Backtest.Dispatch | algotrader/trade/backtest.py:41-53 | a missing key raises KeyError; "buy", "sell" and "close" make exactly the buy (parameters verbatim), sell and close actions; every other direction makes none |
| Backtest.Window | algotrader/trade/backtest.py:29-37 | the strategy sees exactly Open..Volume from the engine's arrays, over the engine's index named "timestamp" |
| Backtest.StrategyWrapper.Next | trade/backtest.py:53-79 | the ledger gains `Dispatch`'s action for the signal the strategy gives on the window and position: at most one, appended after the old ledger; a missing key leaves it unchanged and raises |
| Backtest.Sma | tests/test_run_backtest.py:13-14 | the rolling mean exists exactly when there are at least n closes |
| Backtest.SmaCrossDirection | tests/test_run_backtest.py:16-21 | "buy" exactly when both means exist, fast > slow and no position is open; "close" exactly when both exist and fast < slow; otherwise None |
| Backtest.SmaCrossSignal | tests/test_run_backtest.py:23-30 | the SMA_Cross signal carries all six keys |
| Backtest.SmaCrossDispatch | tests/test_run_backtest.py:12-30 | under SMA_Cross a step buys one unit exactly when fast > slow and the position is flat, and closes exactly when fast < slow; otherwise it does nothing, so there is no action before 20 bars |
| LiveTrade.OrderFor | trade/livetrade.py:30-54 | an order exactly for "buy" or "sell": a deal for the symbol at volume = lot, deviation 20, magic 123456, filling RETURN, with type and comment from the direction |
| LiveTrade.BuySellMirror | trade/livetrade.py:30-54 | the buy and sell orders differ only in type and comment |
| LiveTrade.RatesFrame | trade/livetrade.py:24 | the fetched records become the eight columns time..real_volume over a RangeIndex, each column holding that field of every record in order |
| LiveTrade.EpochSeconds | trade/livetrade.py:25 | the time column becomes the same instants, unshifted |
| LiveTrade.LiveFrame | trade/livetrade.py:24-26 | the strategy sees "close" renamed "Close", time as instants, and every other column as fetched |
| LiveTrade.RunMt5 | trade/livetrade.py:16-56 | a failed initialise raises RuntimeError after that one call; then the 200 newest M5 bars are fetched; a failed fetch raises KeyError("time") without shutdown; at most one order is sent, and it is `OrderFor` the signal; a completed run ends with shutdown |

## Left out

- The terminal, the Dukascopy client, Postgres and the file system. They are call logs whose answers are parameters. Connection failures from `get_conn`, `DB_CONFIG` and `config.py` are not modelled. SQL text is modelled only as far as the identifier rule for the MT5 schema and table names and the Dukascopy table name, and the column the latest-timestamp query reads.
- Mt5.BeforeFetch: which plainly named schemas the database refuses (reserved words, permissions) is the `schemaOk` parameter, not decided by the model. Identifiers longer than 63 bytes are truncated by Postgres and are not modelled.
- `save_to_postgres` is recorded as a call carrying the frame and table name. Its outcome is modelled only as written against a fresh table: rejected when the table name cannot be created, and for every frame with rows. A pre-existing table of another shape, the rows the database would hold, and connection failures are not modelled.
- For the older downloader, whose table has a `time` column, the answer of the latest-timestamp query is a parameter. `QueryFailed` then covers a rejection for other reasons.
- Unicode: `isalnum`, `lower` and strptime's `\d` are modelled on ASCII only.
- Dukascopy.PostgresAccepts: which dotted names the database refuses (reserved words, permissions, a catalog other than the current database) is the `createOk` parameter, not decided by the model. A name that is not a dotted identifier but still parses once spliced in (a quoted name, trailing SQL text) is taken as refused.
- Dukascopy.Normalise: the result is characterised only for fetch results of the shape the Dukascopy client returns (`Conforming`). For other shapes only its index name is stated.
- Dukascopy.DownloadDukascopy: the same restriction applies. For a non-conforming fetch result only the error cases, the first call and the save-mode rules are stated.
- LegacyDukascopy.DownloadDukascopy: the same restriction applies to the legacy download.
- Frames.ShiftToUtcPlus3: `pd.to_datetime(utc=True)` also converts integers (as nanoseconds), parseable strings and None (to NaT). The model accepts only instants and gives a conversion error otherwise. Instants outside the pandas Timestamp range (years 1677 to 2262) are not rejected.
- Frames.Get: for a label that several columns share, pandas' `df[name]` gives all of them as a frame. The model gives the first column's cells. The callers that can meet such a label (Backtest.PrepareBacktestDf and DukascopyCommon.Restamp) check for it and raise where the code raises on that frame.
- Frames.SetIndexOf: for a label that several columns share, pandas' `set_index` does not behave as the model does. The model takes the first column as the index and keeps the others. This case cannot be reached from Dukascopy.Normalise, which calls it only on a frame with a single "timestamp" column.
- Backtest.PrepareBacktestDf: `pd.to_datetime` on a two-dimensional array raises TypeError or ValueError depending on the cells' type. The model gives one conversion error for both.
- Backtest.PrepareBacktestDf: `pd.to_datetime` is modelled only on cells that already are instants. Strings and numbers that pandas would parse give a conversion error in the model.
- Backtest.PrepareBacktestDf: assigning the input's index and then naming it "timestamp" may also rename the caller's shared index object. The model leaves the input unchanged.
- Backtest.Window: the same sharing applies to the engine's index. It is not modelled.
- The backtesting.py engine (fills, cash, commission, statistics, `bt.run`) is not modelled. So are position exclusivity and the absence of look-ahead, and the test figures of 47 trades and a 61.7 % win rate.
- The Dukascopy test's row count and first-bar values depend on remote data and are not modelled.
- Backtest.Sma: rolling means are exact reals, so NaN closes and floating-point rounding are not modelled.
- `StrategyBase.generate_signal` raising NotImplementedError is not modelled. Neither is a strategy returning something other than a dict.
- algotrader/utils.py (`prepare_df`, resampling) is not part of this model. `algotrader.utils.strip_string_list_comp` is assumed to be the function in utils.py:1-3.
- algotrader/charting/charting.py and candlestick.py (UI callbacks and CLI wiring) are not modelled.
- Postgres column widths (INTEGER, BIGINT) and their overflow are not modelled.
