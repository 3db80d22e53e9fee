/** The price table a backtest runs over: one bar per timestamp, its closing price and
    the indicator columns computed for it. A missing or NaN cell is an absent map entry. */
module MarketData {
  import opened Wrappers
  import opened Vocabulary

  /** `close` is None when the closing price is NaN. */
  datatype Bar = Bar(close: Option<real>, cells: map<string, real>)

  /** `columns` are the column names the table lists. Every bar carries its closing
      price, which the engine reads whether or not `Close` is listed. */
  datatype Frame = Frame(columns: set<string>, bars: seq<Bar>)

  const CloseColumn := "Close"

  predicate HasColumn(f: Frame, col: string) {
    col == CloseColumn || col in f.columns
  }

  /** The value of column `col` at bar `t`; None when the column is missing or the cell is NaN. */
  function Cell(f: Frame, t: nat, col: string): (r: Option<real>)
    requires t < |f.bars|
    ensures r.Some? ==> HasColumn(f, col)
  {
    if col == CloseColumn then f.bars[t].close
    else if col in f.columns && col in f.bars[t].cells then Some(f.bars[t].cells[col])
    else None
  }

  /** The column the backend reads for an indicator (its default-period column). */
  function IndicatorColumn(i: Indicator): string {
    match i
    case RSI => "rsi"
    case MACD => "macd_line"
    case SMA => "sma_20"
    case EMA => "ema_20"
    case BollingerBands => "bb_middle"
    case Stochastic => "stoch_k"
    case WilliamsR => "williams_r"
    case ATR => "atr"
    case Volume => "Volume"
    case Close => "Close"
  }

  /** Distinct indicators read distinct columns. */
  lemma IndicatorColumnInjective(a: Indicator, b: Indicator)
    requires IndicatorColumn(a) == IndicatorColumn(b)
    ensures a == b
  {
  }
}
