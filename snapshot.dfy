/**
 * The per-ticker summary rows of Mooviz (`get_data` in app.py): one record
 * per requested ticker, built from the ticker's quote dictionary and its
 * closing prices.
 *
 * The quote (yfinance's `Ticker.info`) and the close series
 * (`history(period="1y")['Close'].dropna()`) come from the network; here they
 * are parameters.
 */
module Snapshot {
  import opened Indicator

  /** A quote dictionary: the numeric fields the provider returned, by name.
      A field the provider left out is a key that is not in the map. */
  type Info = map<string, real>

  const RegularMarketPrice := "regularMarketPrice"
  const PreviousClose := "previousClose"
  const RegularMarketChangePercent := "regularMarketChangePercent"
  const ForwardPE := "forwardPE"
  const TrailingPE := "trailingPE"
  const Volume := "volume"
  const MarketCap := "marketCap"

  /** One row of the screener table. */
  datatype Row = Row(
    ticker: string,
    price: real,
    changePercent: real,
    per: real,
    volumeMillions: real,
    marketCapBillions: real,
    rsi: real)

  /** `info.get(key, default)`; what the row builder's fallback chains yield is
      stated by `BuildRow`'s contract. */
  function Lookup(info: Info, key: string, default: real): real
  {
    if key in info then info[key] else default
  }

  /** `round(x, 2)`: the nearest whole number of hundredths, a tie going to
      the even one. */
  function RoundCents(x: real): (r: real)
    ensures -0.005 <= r - x <= 0.005
    ensures (r * 100.0).Floor as real == r * 100.0
    ensures x * 100.0 - (x * 100.0).Floor as real == 0.5 ==> (r * 100.0).Floor % 2 == 0
  {
    var scaled := x * 100.0;
    var whole := scaled.Floor;
    var frac := scaled - whole as real;
    var cents :=
      if frac < 0.5 then whole
      else if frac > 0.5 then whole + 1
      else if whole % 2 == 0 then whole
      else whole + 1;
    cents as real / 100.0
  }

  /** A value that already is a whole number of hundredths is left as it is. */
  lemma RoundCentsKeepsCents(x: real)
    requires (x * 100.0).Floor as real == x * 100.0
    ensures RoundCents(x) == x
  {
  }

  /** Rounding keeps a value inside [0, 100], since both ends are whole
      hundredths. */
  lemma RoundCentsWithinPercent(x: real)
    requires 0.0 <= x <= 100.0
    ensures 0.0 <= RoundCents(x) <= 100.0
  {
    var whole := (x * 100.0).Floor;
    assert 0 <= whole <= 10000;
    assert whole == 10000 ==> x * 100.0 == 10000.0;
  }

  /** `calculate_rsi(history) if len(history) > 14 else 50`: a series of 14
      closes or fewer never reaches the indicator and reads 50. */
  function RowRsi(closes: seq<real>): (rsi: real)
    ensures 0.0 <= rsi <= 100.0
    ensures |closes| <= Period ==> rsi == 50.0
    ensures |closes| > Period ==> CalculateRsi(closes) == Defined(rsi) && rsi < 100.0
  {
    if |closes| > Period then CalculateRsi(closes).value else 50.0
  }

  /** The record built for one ticker: the price falls back from the market
      price to the previous close to 0, the P/E from forward to trailing to 0,
      a missing change, volume or market cap reads 0, volume is counted in
      millions and market cap in billions, and the RSI is rounded to hundredths. */
  function BuildRow(tick: string, info: Info, closes: seq<real>): (row: Row)
    ensures row.ticker == tick
    ensures RegularMarketPrice in info ==> row.price == info[RegularMarketPrice]
    ensures RegularMarketPrice !in info && PreviousClose in info ==> row.price == info[PreviousClose]
    ensures RegularMarketPrice !in info && PreviousClose !in info ==> row.price == 0.0
    ensures RegularMarketChangePercent in info ==> row.changePercent == info[RegularMarketChangePercent]
    ensures RegularMarketChangePercent !in info ==> row.changePercent == 0.0
    ensures ForwardPE in info ==> row.per == info[ForwardPE]
    ensures ForwardPE !in info && TrailingPE in info ==> row.per == info[TrailingPE]
    ensures ForwardPE !in info && TrailingPE !in info ==> row.per == 0.0
    ensures Volume in info ==> row.volumeMillions * 1_000_000.0 == info[Volume]
    ensures Volume !in info ==> row.volumeMillions == 0.0
    ensures MarketCap in info ==> row.marketCapBillions * 1_000_000_000.0 == info[MarketCap]
    ensures MarketCap !in info ==> row.marketCapBillions == 0.0
    ensures 0.0 <= row.rsi <= 100.0 && (row.rsi * 100.0).Floor as real == row.rsi * 100.0
    ensures |closes| <= Period ==> row.rsi == 50.0
    ensures |closes| > Period ==> -0.005 <= row.rsi - CalculateRsi(closes).value <= 0.005
  {
    var rsi := RowRsi(closes);
    RoundCentsWithinPercent(rsi);
    RoundCentsKeepsCents(50.0);
    Row(
      tick,
      Lookup(info, RegularMarketPrice, Lookup(info, PreviousClose, 0.0)),
      Lookup(info, RegularMarketChangePercent, 0.0),
      Lookup(info, ForwardPE, Lookup(info, TrailingPE, 0.0)),
      Lookup(info, Volume, 0.0) / 1_000_000.0,
      Lookup(info, MarketCap, 0.0) / 1_000_000_000.0,
      RoundCents(rsi))
  }

  /** A series whose last 14 moves include no fall, a steadily rising or a flat
      one among them, shows RSI 0 in its row, not the 100 or 50 of the usual
      convention. */
  lemma RisingOrFlatRowReadsZero(tick: string, info: Info, closes: seq<real>)
    requires |closes| > Period
    requires forall i :: |closes| - Period <= i < |closes| ==> closes[i - 1] <= closes[i]
    ensures BuildRow(tick, info, closes).rsi == 0.0
  {
    NoDownMoveGivesZero(closes);
    RoundCentsKeepsCents(0.0);
  }

  /** `get_data(tickers)`: one row per ticker, in the order given, each built
      from that ticker's own quote and close series. */
  method GetData(tickers: seq<string>, quote: string -> Info, history: string -> seq<real>)
    returns (rows: seq<Row>)
    ensures |rows| == |tickers|
    ensures forall i :: 0 <= i < |tickers| ==> rows[i] == BuildRow(tickers[i], quote(tickers[i]), history(tickers[i]))
    ensures forall i :: 0 <= i < |tickers| ==> rows[i].ticker == tickers[i] && 0.0 <= rows[i].rsi <= 100.0
  {
    rows := [];
    for k := 0 to |tickers|
      invariant |rows| == k
      invariant forall i :: 0 <= i < k ==> rows[i] == BuildRow(tickers[i], quote(tickers[i]), history(tickers[i]))
    {
      var tick := tickers[k];
      rows := rows + [BuildRow(tick, quote(tick), history(tick))];
    }
  }
}
