/** trade/backtest.py and algotrader/trade/backtest.py: the frame handed to
 *  the backtesting engine, and the per-bar step that turns a strategy's
 *  signal into at most one action on the engine's ledger. The engine itself
 *  (fills, cash, statistics) is outside the model. */
module Backtest {
  import opened Common
  import opened Frames

  /** The output columns, in order. */
  const OHLCV: seq<string> := ["Open", "High", "Low", "Close", "Volume"]

  /** `[df[n].values for n in names]`, evaluated left to right: KeyError on
   *  the first name that is not a column. */
  function GetAll(df: Frame, names: seq<string>): (r: Result<seq<seq<Value>>>)
    ensures r.Ok? <==> forall i :: 0 <= i < |names| ==> names[i] in Names(df.columns)
    ensures r.Ok? ==> |r.value| == |names| && forall i :: 0 <= i < |names| ==> Get(df, names[i]) == Ok(r.value[i])
    ensures r.Err? ==>
      exists i :: 0 <= i < |names| && r.error == KeyError(names[i])
        && names[i] !in Names(df.columns) && forall j :: 0 <= j < i ==> names[j] in Names(df.columns)
  {
    if names == [] then Ok([])
    else match Get(df, names[0])
      case Err(e) => Err(e)
      case Ok(cells) =>
        match GetAll(df, names[1..])
        case Err(e) =>
          assert forall j :: 1 <= j < |names| ==> names[j] == names[1..][j - 1];
          Err(e)
        case Ok(rest) =>
          assert forall j :: 1 <= j < |names| ==> names[j] == names[1..][j - 1];
          Ok([cells] + rest)
  }

  /** The same index under another name. */
  function Named(idx: Index, name: string): (r: Index)
    ensures r.Name() == Some(name)
    ensures r.Length() == idx.Length() && r.Values() == idx.Values()
    ensures r.RangeIndex? == idx.RangeIndex?
  {
    match idx
    case RangeIndex(_, n) => RangeIndex(Some(name), n)
    case Labels(_, ls) => Labels(Some(name), ls)
  }

  predicate AllInstants(cells: seq<Value>)
  {
    forall i :: 0 <= i < |cells| ==> cells[i].Instant?
  }

  /** Whether `timestamp_col and timestamp_col in df` holds. */
  predicate UsesTimestampColumn(df: Frame, timestampCol: Option<string>)
  {
    timestampCol.Some? && timestampCol.value != "" && timestampCol.value in Names(df.columns)
  }

  /** Whether any of `names` labels more than one column. */
  predicate AnyRepeated(cols: seq<Column>, names: seq<string>)
  {
    exists i :: 0 <= i < |names| && Repeated(cols, names[i])
  }

  /** `prepare_backtest_df`: the five named columns copied by position under
   *  the names Open..Volume; the index taken from `timestamp_col` when it is
   *  given and present, else from a non-RangeIndex input index, both named
   *  "timestamp"; otherwise a fresh RangeIndex. All five lookups happen
   *  before the frame is built, so a missing column raises KeyError first;
   *  a label several columns share makes `df[name].values` two-dimensional,
   *  which `pd.DataFrame` refuses with ValueError and `pd.to_datetime` refuses
   *  too. */
  function PrepareBacktestDf(df: Frame, openCol: string, highCol: string, lowCol: string, closeCol: string,
                             volumeCol: string, timestampCol: Option<string>): (r: Result<Frame>)
    requires WellFormed(df)
    ensures r.Ok? ==> Names(r.value.columns) == OHLCV && WellFormed(r.value)
    ensures r.Ok? ==> r.value.index.Length() == df.index.Length()
    ensures r.Ok? ==> forall i :: 0 <= i < 5 ==>
      Get(df, [openCol, highCol, lowCol, closeCol, volumeCol][i]) == Ok(r.value.columns[i].cells)
    ensures r.Ok? && UsesTimestampColumn(df, timestampCol) ==>
      r.value.index == Labels(Some("timestamp"), Get(df, timestampCol.value).value)
    ensures r.Ok? && !UsesTimestampColumn(df, timestampCol) && df.index.Labels? ==>
      r.value.index == Labels(Some("timestamp"), df.index.labels)
    ensures r.Ok? && !UsesTimestampColumn(df, timestampCol) && df.index.RangeIndex? ==>
      r.value.index == RangeIndex(None, df.index.Length())
    ensures GetAll(df, [openCol, highCol, lowCol, closeCol, volumeCol]).Err? ==>
      r == Err(GetAll(df, [openCol, highCol, lowCol, closeCol, volumeCol]).error)
    ensures (GetAll(df, [openCol, highCol, lowCol, closeCol, volumeCol]).Ok?
             && AnyRepeated(df.columns, [openCol, highCol, lowCol, closeCol, volumeCol])) ==> r == Err(ValueError)
    ensures (r.Err? && GetAll(df, [openCol, highCol, lowCol, closeCol, volumeCol]).Ok?
             && !AnyRepeated(df.columns, [openCol, highCol, lowCol, closeCol, volumeCol])) ==>
      r.error == ConversionError && UsesTimestampColumn(df, timestampCol)
      && (Repeated(df.columns, timestampCol.value) || !AllInstants(Get(df, timestampCol.value).value))
    ensures r.Ok? <==>
      GetAll(df, [openCol, highCol, lowCol, closeCol, volumeCol]).Ok?
        && !AnyRepeated(df.columns, [openCol, highCol, lowCol, closeCol, volumeCol])
        && (UsesTimestampColumn(df, timestampCol) ==>
              !Repeated(df.columns, timestampCol.value) && AllInstants(Get(df, timestampCol.value).value))
  {
    var names := [openCol, highCol, lowCol, closeCol, volumeCol];
    match GetAll(df, names)
    case Err(e) => Err(e)
    case Ok(cells) =>
      if AnyRepeated(df.columns, names) then Err(ValueError)
      else
        var columns := seq(5, i requires 0 <= i < 5 => Column(OHLCV[i], cells[i]));
        if UsesTimestampColumn(df, timestampCol) then
          var stamps := Get(df, timestampCol.value).value;
          if !Repeated(df.columns, timestampCol.value) && AllInstants(stamps) then
            Ok(Frame(columns, Labels(Some("timestamp"), stamps)))
          else Err(ConversionError)
        else if df.index.Labels? then Ok(Frame(columns, Named(df.index, "timestamp")))
        else Ok(Frame(columns, RangeIndex(None, df.index.Length())))
  }

  /** A frame whose columns are exactly Open..Volume repeats none of them. */
  lemma OhlcvDistinct(cols: seq<Column>)
    requires Names(cols) == OHLCV
    ensures !AnyRepeated(cols, OHLCV)
  {
    forall a, b | 0 <= a < b < 5 ensures cols[a].name != cols[b].name {
      assert cols[a].name == OHLCV[a] && cols[b].name == OHLCV[b];
      assert OHLCV[a][0] != OHLCV[b][0] || |OHLCV[a]| != |OHLCV[b]|;
    }
  }

  /** A frame with two columns called "Open" is refused with ValueError,
   *  although every column the defaults name exists. */
  lemma RepeatedOpenRefused()
    ensures var cols := [Column("Open", []), Column("Open", []), Column("High", []), Column("Low", []),
                         Column("Close", []), Column("Volume", [])];
      PrepareBacktestDf(Frame(cols, RangeIndex(None, 0)), "Open", "High", "Low", "Close", "Volume", None)
        == Err(ValueError)
  {
    var cols := [Column("Open", []), Column("Open", []), Column("High", []), Column("Low", []),
                 Column("Close", []), Column("Volume", [])];
    var names := ["Open", "High", "Low", "Close", "Volume"];
    assert Repeated(cols, names[0]) by { assert cols[0].name == cols[1].name == "Open"; }
    forall i | 0 <= i < 5 ensures names[i] in Names(cols) {
      assert Names(cols)[i + 1] == names[i];
    }
  }

  /** Looking a name up in the OHLCV columns finds it at its own position. */
  lemma FindOhlcv(cols: seq<Column>, i: int)
    requires Names(cols) == OHLCV && 0 <= i < 5
    ensures Find(cols, OHLCV[i]) == Some(i)
  {
    forall j | 0 <= j < 5 ensures cols[j].name == OHLCV[j] {
      assert Names(cols)[j] == cols[j].name;
    }
  }

  /** Preparing a prepared frame again with the default column names and no
   *  timestamp column gives it back unchanged. */
  lemma PrepareIdempotent(df: Frame, openCol: string, highCol: string, lowCol: string, closeCol: string,
                          volumeCol: string, timestampCol: Option<string>)
    requires WellFormed(df)
    requires PrepareBacktestDf(df, openCol, highCol, lowCol, closeCol, volumeCol, timestampCol).Ok?
    ensures var once := PrepareBacktestDf(df, openCol, highCol, lowCol, closeCol, volumeCol, timestampCol).value;
      PrepareBacktestDf(once, "Open", "High", "Low", "Close", "Volume", None) == Ok(once)
  {
    var once := PrepareBacktestDf(df, openCol, highCol, lowCol, closeCol, volumeCol, timestampCol).value;
    OhlcvDistinct(once.columns);
    forall i | 0 <= i < 5 ensures Get(once, OHLCV[i]) == Ok(once.columns[i].cells) {
      FindOhlcv(once.columns, i);
    }
    var again := PrepareBacktestDf(once, "Open", "High", "Low", "Close", "Volume", None).value;
    assert |again.columns| == 5 == |once.columns|;
    forall i | 0 <= i < 5 ensures again.columns[i] == once.columns[i] {
      assert again.columns[i].name == Names(again.columns)[i] == OHLCV[i] == Names(once.columns)[i];
      assert Get(once, ["Open", "High", "Low", "Close", "Volume"][i]) == Ok(again.columns[i].cells);
      assert ["Open", "High", "Low", "Close", "Volume"][i] == OHLCV[i];
    }
    assert again.columns == once.columns;
  }

  // ---------------------------------------------------------------------
  // Signal dispatch
  // ---------------------------------------------------------------------

  /** The dict a strategy returns. */
  type Signal = map<string, Value>

  /** The keys `next` reads, in the order it reads them. */
  const SIGNAL_KEYS: seq<string> := ["direction", "size", "limit", "stop", "sl", "tp"]

  /** `[signal[k] for k in keys]`, left to right: KeyError on the first
   *  missing key. */
  function LookupAll(signal: Signal, keys: seq<string>): (r: Result<seq<Value>>)
    ensures r.Ok? <==> forall i :: 0 <= i < |keys| ==> keys[i] in signal
    ensures r.Ok? ==> |r.value| == |keys| && forall i :: 0 <= i < |keys| ==> r.value[i] == signal[keys[i]]
    ensures r.Err? ==>
      exists i :: 0 <= i < |keys| && r.error == KeyError(keys[i])
        && keys[i] !in signal && forall j :: 0 <= j < i ==> keys[j] in signal
  {
    if keys == [] then Ok([])
    else if keys[0] !in signal then Err(KeyError(keys[0]))
    else
      assert forall j :: 1 <= j < |keys| ==> keys[j] == keys[1..][j - 1];
      match LookupAll(signal, keys[1..])
      case Err(e) => Err(e)
      case Ok(rest) => Ok([signal[keys[0]]] + rest)
  }

  /** The arguments `buy` and `sell` receive, passed on as the signal has
   *  them. */
  datatype OrderParams = OrderParams(size: Value, limit: Value, stop: Value, sl: Value, tp: Value)

  /** An action on the engine's ledger. */
  datatype Action = Buy(params: OrderParams) | Sell(params: OrderParams) | ClosePosition

  /** One step's dispatch: "buy", "sell" and "close" make their action, any
   *  other direction (None included) makes none; a missing key raises. */
  function Dispatch(signal: Signal): (r: Result<Option<Action>>)
    ensures r.Ok? <==>
      "direction" in signal && "size" in signal && "limit" in signal && "stop" in signal && "sl" in signal && "tp" in signal
    ensures r.Err? ==> r.error.KeyError? && r.error.key in SIGNAL_KEYS && r.error.key !in signal
    ensures r.Ok? ==> var params := OrderParams(signal["size"], signal["limit"], signal["stop"], signal["sl"], signal["tp"]);
      (r.value == Some(Buy(params)) <==> signal["direction"] == Text("buy"))
      && (r.value == Some(Sell(params)) <==> signal["direction"] == Text("sell"))
      && (r.value == Some(ClosePosition) <==> signal["direction"] == Text("close"))
      && (r.value == None <==> signal["direction"] !in [Text("buy"), Text("sell"), Text("close")])
  {
    match LookupAll(signal, SIGNAL_KEYS)
    case Err(e) => Err(e)
    case Ok(vs) =>
      var params := OrderParams(vs[1], vs[2], vs[3], vs[4], vs[5]);
      if vs[0] == Text("buy") then Ok(Some(Buy(params)))
      else if vs[0] == Text("sell") then Ok(Some(Sell(params)))
      else if vs[0] == Text("close") then Ok(Some(ClosePosition))
      else Ok(None)
  }

  /** The engine's view of the bars so far (`self.data`): the five price and
   *  volume arrays and the index. */
  datatype EngineData = EngineData(open: seq<Value>, high: seq<Value>, low: seq<Value>, close: seq<Value>,
                                   volume: seq<Value>, index: Index)

  /** The frame `next` builds from `self.data` for the strategy. */
  function Window(data: EngineData): (w: Frame)
    ensures Names(w.columns) == OHLCV
    ensures w.columns[0].cells == data.open && w.columns[1].cells == data.high && w.columns[2].cells == data.low
      && w.columns[3].cells == data.close && w.columns[4].cells == data.volume
    ensures w.index.Name() == Some("timestamp") && w.index.Values() == data.index.Values()
  {
    Frame([Column("Open", data.open), Column("High", data.high), Column("Low", data.low),
           Column("Close", data.close), Column("Volume", data.volume)],
          Named(data.index, "timestamp"))
  }

  /** The engine's position; `not position` holds when it is flat. */
  datatype Position = Position(size: real)
  {
    predicate IsOpen()
    {
      size != 0.0
    }
  }

  /** The `StrategyWrapper` that `run_backtest` hands to the engine, with the
   *  engine's ledger as the list of actions it has been given. */
  class StrategyWrapper {
    /** `strategy_class().generate_signal`: a fresh instance is built every
     *  step, so the signal is a function of the window and the position. */
    const strategy: (Frame, Position) -> Signal
    var ledger: seq<Action>

    constructor (strategy: (Frame, Position) -> Signal)
      ensures this.strategy == strategy && ledger == []
    {
      this.strategy := strategy;
      ledger := [];
    }

    /** `next`: build the window, ask the strategy, and act on the signal.
     *  A missing key raises and aborts the run, leaving the ledger as it was. */
    method Next(data: EngineData, position: Position) returns (err: Option<Error>)
      modifies this
      ensures var d := Dispatch(strategy(Window(data), position));
        (d.Err? ==> err == Some(d.error) && ledger == old(ledger))
        && (d.Ok? ==> err == None && ledger == old(ledger) + (if d.value.Some? then [d.value.value] else []))
      ensures |old(ledger)| <= |ledger| <= |old(ledger)| + 1 && ledger[..|old(ledger)|] == old(ledger)
    {
      var window := Window(data);
      var signal := strategy(window, position);
      var d := Dispatch(signal);
      if d.Err? {
        return Some(d.error);
      }
      err := None;
      match d.value {
        case Some(action) => ledger := ledger + [action];
        case None =>
      }
    }
  }

  // ---------------------------------------------------------------------
  // The SMA-cross strategy of the tests
  // ---------------------------------------------------------------------

  function Sum(xs: seq<real>): real
  {
    if xs == [] then 0.0 else Sum(xs[..|xs| - 1]) + xs[|xs| - 1]
  }

  /** The last value of `rolling(n).mean()`: the mean of the last `n` closes,
   *  or NaN (None) before `n` bars exist. */
  function Sma(closes: seq<real>, n: nat): (r: Option<real>)
    requires n > 0
    ensures r.Some? <==> |closes| >= n
  {
    if |closes| < n then None else Some(Sum(closes[|closes| - n..]) / n as real)
  }

  /** `df['sma_fast'].iloc[-1] > df['sma_slow'].iloc[-1] and not position`
   *  gives "buy", else `<` gives "close", else None; any comparison with
   *  NaN is false. */
  function SmaCrossDirection(fast: Option<real>, slow: Option<real>, position: Position): (d: Value)
    ensures d == Text("buy") <==> fast.Some? && slow.Some? && fast.value > slow.value && !position.IsOpen()
    ensures d == Text("close") <==> fast.Some? && slow.Some? && fast.value < slow.value
    ensures d in {Text("buy"), Text("close"), NoneValue}
  {
    if fast.Some? && slow.Some? && fast.value > slow.value && !position.IsOpen() then Text("buy")
    else if fast.Some? && slow.Some? && fast.value < slow.value then Text("close")
    else NoneValue
  }

  /** The signal dict of the tests' SMA_Cross strategy. */
  function SmaCrossSignal(closes: seq<real>, position: Position): (s: Signal)
    ensures forall k :: k in SIGNAL_KEYS ==> k in s
  {
    map["direction" := SmaCrossDirection(Sma(closes, 10), Sma(closes, 20), position),
        "size" := Int(1), "limit" := NoneValue, "stop" := NoneValue, "sl" := NoneValue, "tp" := NoneValue]
  }

  /** Under SMA_Cross the step buys one unit exactly when both averages exist,
   *  the fast is above the slow and the position is flat; closes exactly when
   *  the fast is below the slow; and otherwise does nothing, so nothing
   *  happens before twenty bars. */
  lemma SmaCrossDispatch(closes: seq<real>, position: Position)
    ensures var d := Dispatch(SmaCrossSignal(closes, position));
      var fast := Sma(closes, 10); var slow := Sma(closes, 20);
      d.Ok?
      && (d.value == Some(Buy(OrderParams(Int(1), NoneValue, NoneValue, NoneValue, NoneValue))) <==>
            |closes| >= 20 && fast.value > slow.value && !position.IsOpen())
      && (d.value == Some(ClosePosition) <==> |closes| >= 20 && fast.value < slow.value)
      && (d.value.Some? ==> |closes| >= 20)
      && (d.value.Some? ==> d.value.value.Buy? || d.value.value.ClosePosition?)
  {
    var s := SmaCrossSignal(closes, position);
    assert forall i :: 0 <= i < |SIGNAL_KEYS| ==> SIGNAL_KEYS[i] in s;
  }
}
