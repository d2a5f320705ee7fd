/** `download_dukascopy` of fetch/dukascopy_data.py: the older variant. Its
 *  rename map sends every name to itself, the bar start stays a column
 *  (moved to UTC+3) and the frame is always written to the parquet file
 *  `<stripped symbol>_<timeframe>` without an index; it returns None. The
 *  module's own `strip_string_list_comp` (fetch/dukascopy_data.py:111-113)
 *  is the same text as utils.py's and is modelled by Utils.Strip. */
module LegacyDukascopy {
  import opened Common
  import opened Frames
  import opened Dates
  import opened Naming
  import opened DukascopyCommon

  /** The rename map of the normalisation step: every key maps to itself. */
  const SAME_NAMES: map<string, string> :=
    map["open" := "open", "high" := "high", "low" := "low", "close" := "close", "volume" := "volume"]

  /** Renaming by a map that sends every key to itself changes nothing. */
  lemma RenameIdentity(f: Frame, m: map<string, string>)
    requires forall k :: k in m ==> m[k] == k
    ensures RenameColumns(f, m) == f
  {
    var r := RenameColumns(f, m);
    assert r.columns == f.columns;
  }

  /** `download_dukascopy(symbol, timeframe, offer_side, date_from, date_to)`;
   *  `fetched` is what the Dukascopy client returns. */
  method DownloadDukascopy(symbol: string, timeframe: string, offerSide: string,
                           dateFrom: Option<string>, dateTo: Option<string>, fetched: Frame)
    returns (result: Result<Option<Frame>>, calls: seq<Call>)
    ensures result.Ok? ==> result.value == None
    ensures DateBounds(dateFrom, dateTo).Err? ==>
      result == Err(DateBounds(dateFrom, dateTo).error) && calls == []
    ensures DateBounds(dateFrom, dateTo).Ok? ==>
      var (from, to) := DateBounds(dateFrom, dateTo).value;
      |calls| >= 1 && calls[0] == FetchBars(symbol, timeframe, offerSide, from, to)
    ensures DateBounds(dateFrom, dateTo).Ok? && Conforming(fetched) ==>
      var (from, to) := DateBounds(dateFrom, dateTo).value;
      && result == Ok(None)
      && calls == [FetchBars(symbol, timeframe, offerSide, from, to),
                   WriteParquet(StorageName(symbol, timeframe), Restamped(fetched), false)]
  {
    var bounds := DateBounds(dateFrom, dateTo);
    if bounds.Err? {
      return Err(bounds.error), [];
    }
    var (from, to) := bounds.value;
    calls := [FetchBars(symbol, timeframe, offerSide, from, to)];

    var df := new DataFrame(RenameColumns(fetched, SAME_NAMES));
    RenameIdentity(fetched, SAME_NAMES);
    var err := Restamp(df);
    if err.Some? {
      return Err(err.value), calls;
    }
    calls := calls + [WriteParquet(StorageName(symbol, timeframe), df.value, false)];
    result := Ok(None);
  }
}
