/** The exchange as the bot sees it: the calls it makes and the answers it
    may get back, including failures. The client library itself is not
    modelled; its answers are inputs to the handlers. */
module Exchange {

  /** Binance reports prices as decimal strings; the bot only converts
      them to floats for plotting. */
  type Price = string

  /** One daily candle: the fields at positions 0 to 4 of a kline row. */
  datatype Kline = Kline(openTime: int, open: Price, high: Price, low: Price, close: Price)

  /** The answer to `get_exchange_info()`, reduced to the symbol names. */
  datatype SymbolsResult = Symbols(symbols: seq<string>) | SymbolsFailed(message: string)

  /** The answer to `get_klines(...)`: possibly empty, or a raised error. */
  datatype KlinesResult = Candles(klines: seq<Kline>) | KlinesFailed(message: string)

  /** The answer to `order_market_buy(...)`. */
  datatype OrderResult = Placed(confirmation: string) | OrderFailed(message: string)

  /** `Client.KLINE_INTERVAL_1DAY` */
  const DailyInterval := "1d"

  /** A request the bot sends to the exchange. */
  datatype Call =
    | GetExchangeInfo
    | OrderMarketBuy(symbol: string, quantity: real)
    | GetKlines(symbol: string, interval: string, limit: int)

  /** The five parallel lists the chart is drawn from. */
  datatype Series = Series(times: seq<int>, opens: seq<Price>, highs: seq<Price>, lows: seq<Price>, closes: seq<Price>)

  /** Point `j` of every list comes from candle `j`. */
  function SeriesOf(klines: seq<Kline>): (s: Series)
    ensures |s.times| == |s.opens| == |s.highs| == |s.lows| == |s.closes| == |klines|
    ensures forall j :: 0 <= j < |klines| ==>
      && s.times[j] == klines[j].openTime
      && s.opens[j] == klines[j].open
      && s.highs[j] == klines[j].high
      && s.lows[j] == klines[j].low
      && s.closes[j] == klines[j].close
  {
    Series(seq(|klines|, j requires 0 <= j < |klines| => klines[j].openTime),
           seq(|klines|, j requires 0 <= j < |klines| => klines[j].open),
           seq(|klines|, j requires 0 <= j < |klines| => klines[j].high),
           seq(|klines|, j requires 0 <= j < |klines| => klines[j].low),
           seq(|klines|, j requires 0 <= j < |klines| => klines[j].close))
  }

  /** The candle loop: one point appended to each of the five lists per
      candle, in order. */
  method CollectSeries(klines: seq<Kline>) returns (series: Series)
    ensures series == SeriesOf(klines)
  {
    var times, opens, highs, lows, closes := [], [], [], [], [];
    for i := 0 to |klines|
      invariant times == SeriesOf(klines[..i]).times
      invariant opens == SeriesOf(klines[..i]).opens
      invariant highs == SeriesOf(klines[..i]).highs
      invariant lows == SeriesOf(klines[..i]).lows
      invariant closes == SeriesOf(klines[..i]).closes
    {
      var k := klines[i];
      times := times + [k.openTime];
      opens := opens + [k.open];
      highs := highs + [k.high];
      lows := lows + [k.low];
      closes := closes + [k.close];
    }
    assert klines[..|klines|] == klines;
    series := Series(times, opens, highs, lows, closes);
  }

}
