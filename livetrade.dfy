/** trade/livetrade.py: one live step on MT5. Fetch the last 200 five-minute
 *  bars, ask the strategy for a signal, and send at most one market order. */
module LiveTrade {
  import opened Common
  import opened Frames
  import Mt5

  /** `mt5.TRADE_ACTION_DEAL`, held symbolically. */
  datatype TradeAction = TradeActionDeal
  /** `mt5.ORDER_TYPE_BUY` and `mt5.ORDER_TYPE_SELL`. */
  datatype OrderType = OrderTypeBuy | OrderTypeSell
  /** `mt5.ORDER_FILLING_RETURN`. */
  datatype Filling = OrderFillingReturn

  /** The request dict handed to `mt5.order_send`. */
  datatype OrderRequest = OrderRequest(action: TradeAction, symbol: string, volume: real, orderType: OrderType,
                                       deviation: int, magic: int, comment: string, filling: Filling)

  const DEVIATION := 20
  const MAGIC := 123456

  /** The order a signal asks for: a market deal for `lot` on "buy" or
   *  "sell", nothing for any other value. */
  function OrderFor(signal: Value, symbol: string, lot: real): (r: Option<OrderRequest>)
    ensures r.Some? <==> signal == Text("buy") || signal == Text("sell")
    ensures r.Some? ==>
      r.value.action == TradeActionDeal && r.value.symbol == symbol && r.value.volume == lot
        && r.value.deviation == 20 && r.value.magic == 123456 && r.value.filling == OrderFillingReturn
    ensures signal == Text("buy") ==> r.value.orderType == OrderTypeBuy && r.value.comment == "Strategy Buy"
    ensures signal == Text("sell") ==> r.value.orderType == OrderTypeSell && r.value.comment == "Strategy Sell"
  {
    if signal == Text("buy") then
      Some(OrderRequest(TradeActionDeal, symbol, lot, OrderTypeBuy, DEVIATION, MAGIC, "Strategy Buy", OrderFillingReturn))
    else if signal == Text("sell") then
      Some(OrderRequest(TradeActionDeal, symbol, lot, OrderTypeSell, DEVIATION, MAGIC, "Strategy Sell", OrderFillingReturn))
    else None
  }

  /** A buy order and a sell order for the same symbol and lot differ only in
   *  their type and comment. */
  lemma BuySellMirror(symbol: string, lot: real)
    ensures var b := OrderFor(Text("buy"), symbol, lot).value;
      var s := OrderFor(Text("sell"), symbol, lot).value;
      b.orderType != s.orderType && b.comment != s.comment
      && b.(orderType := s.orderType, comment := s.comment) == s
  {
  }

  /** The fields of an MT5 rate record, in the record's order. */
  const RATE_FIELDS: seq<string> := ["time", "open", "high", "low", "close", "tick_volume", "spread", "real_volume"]

  /** Field number `c` of a rate record, as a frame cell. */
  function Field(rate: Mt5.Rate, c: nat): Value
    requires c < 8
  {
    match c
    case 0 => Int(rate.time)
    case 1 => Num(rate.open)
    case 2 => Num(rate.high)
    case 3 => Num(rate.low)
    case 4 => Num(rate.close)
    case 5 => Int(rate.tickVolume)
    case 6 => Int(rate.spread)
    case _ => Int(rate.realVolume)
  }

  /** `pd.DataFrame(rates)`: one column per record field, in the record's
   *  order, holding that field of every rate, over a RangeIndex. */
  function RatesFrame(rates: seq<Mt5.Rate>): (f: Frame)
    ensures WellFormed(f) && f.index == RangeIndex(None, |rates|)
    ensures Names(f.columns) == RATE_FIELDS
    ensures |f.columns| == 8
    ensures forall c, i :: 0 <= c < 8 && 0 <= i < |rates| ==> f.columns[c].cells[i] == Field(rates[i], c)
  {
    var n := |rates|;
    Frame(seq(8, c requires 0 <= c < 8 => Column(RATE_FIELDS[c], seq(n, i requires 0 <= i < n => Field(rates[i], c)))),
          RangeIndex(None, n))
  }

  /** `pd.to_datetime(df['time'], unit='s')`: the same instants, with no zone
   *  and no shift. */
  function EpochSeconds(rates: seq<Mt5.Rate>): (cells: seq<Value>)
    ensures |cells| == |rates|
    ensures forall i :: 0 <= i < |rates| ==> cells[i] == Instant(rates[i].time)
  {
    seq(|rates|, i requires 0 <= i < |rates| => Instant(rates[i].time))
  }

  /** The frame the strategy sees: `time` converted to instants and "close"
   *  renamed to "Close"; every other column as fetched. */
  function LiveFrame(rates: seq<Mt5.Rate>): (f: Frame)
    ensures f.index == RangeIndex(None, |rates|)
    ensures Names(f.columns) == ["time", "open", "high", "low", "Close", "tick_volume", "spread", "real_volume"]
    ensures Get(f, "time") == Ok(EpochSeconds(rates))
    ensures |f.columns| == 8 && forall i :: 1 <= i < 8 ==> f.columns[i].cells == RatesFrame(rates).columns[i].cells
  {
    var timed := AssignColumn(RatesFrame(rates), "time", EpochSeconds(rates));
    TimeAssigned(rates);
    var f := RenameColumns(timed, map["close" := "Close"]);
    CloseRenamed(timed);
    assert Find(f.columns, "time") == Some(0);
    f
  }

  /** Assigning the converted times overwrites the first column. */
  lemma TimeAssigned(rates: seq<Mt5.Rate>)
    ensures AssignColumn(RatesFrame(rates), "time", EpochSeconds(rates)).columns
         == RatesFrame(rates).columns[0 := Column("time", EpochSeconds(rates))]
  {
    var raw := RatesFrame(rates);
    assert Names(raw.columns)[0] == "time";
    assert Find(raw.columns, "time") == Some(0);
  }

  /** Renaming "close" in a frame with the record's field names. */
  lemma CloseRenamed(g: Frame)
    requires Names(g.columns) == RATE_FIELDS
    ensures Names(RenameColumns(g, map["close" := "Close"]).columns)
         == ["time", "open", "high", "low", "Close", "tick_volume", "spread", "real_volume"]
  {
    var f := RenameColumns(g, map["close" := "Close"]);
    forall i | 0 <= i < 8
      ensures Names(f.columns)[i] == ["time", "open", "high", "low", "Close", "tick_volume", "spread", "real_volume"][i]
    {
      assert g.columns[i].name == RATE_FIELDS[i];
    }
  }

  /** The calls `run_mt5` makes on the terminal, in order. */
  datatype LiveCall = Initialize | Fetch(request: Mt5.FetchRequest) | OrderSend(order: OrderRequest) | Shutdown

  /** How a run ends (`error` is None when it returns) and what it called. */
  datatype LiveRun = LiveRun(error: Option<Error>, calls: seq<LiveCall>)

  /** `run_mt5(strategy_class, symbol, lot)`, given what `mt5.initialize()`
   *  answers and what the fetch returns (None when it fails, after which
   *  `df['time']` raises KeyError on the empty frame). */
  function RunMt5(strategy: Frame -> Value, symbol: string, lot: real, initOk: bool,
                  rates: Option<seq<Mt5.Rate>>): (run: LiveRun)
    ensures !initOk ==> run == LiveRun(Some(RuntimeError), [Initialize])
    ensures initOk ==> |run.calls| >= 2 && run.calls[..2] == [Initialize, Fetch(Mt5.CopyRatesFromPos(symbol, Mt5.M5, 0, 200))]
    ensures initOk && rates.None? ==> run == LiveRun(Some(KeyError("time")), [Initialize, Fetch(Mt5.CopyRatesFromPos(symbol, Mt5.M5, 0, 200))])
    ensures forall i, j :: 0 <= i < j < |run.calls| && run.calls[i].OrderSend? ==> !run.calls[j].OrderSend?
    ensures forall i :: 0 <= i < |run.calls| && run.calls[i].OrderSend? ==>
      rates.Some? && OrderFor(strategy(LiveFrame(rates.value)), symbol, lot) == Some(run.calls[i].order)
    ensures run.error.None? <==> initOk && rates.Some?
    ensures run.error.None? ==>
      run.calls[|run.calls| - 1] == Shutdown
        && (OrderFor(strategy(LiveFrame(rates.value)), symbol, lot).Some? <==> exists i :: 0 <= i < |run.calls| && run.calls[i].OrderSend?)
  {
    if !initOk then LiveRun(Some(RuntimeError), [Initialize])
    else
      var fetched := [Initialize, Fetch(Mt5.CopyRatesFromPos(symbol, Mt5.M5, 0, 200))];
      match rates
      case None => LiveRun(Some(KeyError("time")), fetched)
      case Some(rs) =>
        var signal := strategy(LiveFrame(rs));
        match OrderFor(signal, symbol, lot)
        case Some(request) =>
          var calls := fetched + [OrderSend(request), Shutdown];
          assert calls[2].OrderSend?;
          LiveRun(None, calls)
        case None => LiveRun(None, fetched + [Shutdown])
  }
}
