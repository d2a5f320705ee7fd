/** Vocabulary shared by every module: optional values, the exceptions the
 *  Python code raises, ASCII letter case, the fixed UTC+3 offset and the
 *  rule for names spliced unquoted into SQL. */
module Common {

  datatype Option<T> = None | Some(value: T)

  /** The exception classes the modelled functions can raise. */
  datatype Error =
    | ValueError          // unknown timeframe name, unparsable date, duplicate column on reset_index
    | RuntimeError        // the MetaTrader 5 terminal did not initialise
    | KeyError(key: string)
    | DatabaseError       // a statement the database rejects
    | ConversionError     // pd.to_datetime refusing its input: a cell that holds no point in time, or a 2-D array
    | OverflowError       // a datetime moved before 0001-01-01 00:00

  datatype Result<T> = Ok(value: T) | Err(error: Error)

  const SECONDS_PER_HOUR: int := 3600
  const SECONDS_PER_DAY: int := 86400

  /** Offset of the UTC+3 zone (`timezone(timedelta(hours=3))`, `Etc/GMT-3`)
   *  the project works in, in seconds. */
  const UTC_PLUS_3: int := 3 * SECONDS_PER_HOUR

  /** `str.lower` restricted to ASCII. */
  function LowerChar(c: char): char
  {
    if 'A' <= c <= 'Z' then (c as int + 32) as char else c
  }

  function Lower(s: string): (r: string)
    ensures |r| == |s|
    ensures forall i :: 0 <= i < |s| ==> r[i] == LowerChar(s[i])
  {
    seq(|s|, i requires 0 <= i < |s| => LowerChar(s[i]))
  }

  /** A character that may start an unquoted Postgres identifier: a letter,
   *  an underscore, or any character outside ASCII. */
  predicate IdentStart(c: char)
  {
    'a' <= c <= 'z' || 'A' <= c <= 'Z' || c == '_' || c >= '\U{80}'
  }

  /** Whether `s` can stand unquoted as a Postgres identifier, as every
   *  schema and table name spliced into the SQL text must: not empty,
   *  an identifier start first, then identifier starts, digits or `$`. */
  predicate PlainIdentifier(s: string)
  {
    && |s| > 0
    && IdentStart(s[0])
    && forall i :: 1 <= i < |s| ==> IdentStart(s[i]) || '0' <= s[i] <= '9' || s[i] == '$'
  }
}
