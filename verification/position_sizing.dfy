/** How much of the portfolio one trade commits (`calculate_position_size`), before
    leverage is applied. Every known sizing kind is capped at `maxPositionSize` percent
    of the portfolio (10 when not configured). */
module PositionSizing {
  import opened Wrappers
  import opened Numbers
  import opened Vocabulary
  import opened StrategyConfig

  const KellyFraction: real := 0.25
  const FallbackFraction: real := 0.02
  /** The ATR assumed when no ATR value is available: 2% of the price. */
  const DefaultAtrFraction: real := 0.02

  /** The most a known sizing kind may commit. */
  function Cap(e: Entry, portfolio: real): real {
    portfolio * (e.maxPositionSize / 100.0)
  }

  /** The fraction of the portfolio a proportional kind asks for; None stands for an
      infinite fraction (a zero ATR makes the volatility factor infinite). */
  function Rate(e: Entry, price: real, atr: Option<real>): Option<real>
    requires e.sizing.Some? && e.sizing != Some(FixedDollar)
    requires e.sizing == Some(VolatilityBased) ==> price != 0.0
  {
    match e.sizing.value
    case FixedPercentage => Some(e.sizingValue / 100.0)
    case RiskBased => Some(e.riskPerTrade / 100.0)
    case KellyCriterion => Some(KellyFraction)
    case VolatilityBased =>
      var a := atr.GetOr(price * DefaultAtrFraction);
      if a == 0.0 then None else Some((e.sizingValue / 100.0) * (1.0 / (a / price)))
  }

  /** The size a kind asks for before the cap; None stands for an infinite request. */
  function Requested(e: Entry, portfolio: real, price: real, atr: Option<real>): Option<real>
    requires e.sizing.Some?
    requires e.sizing == Some(VolatilityBased) ==> price != 0.0
  {
    if e.sizing == Some(FixedDollar) then Some(e.sizingValue)
    else
      match Rate(e, price, atr)
      case Some(f) => Some(portfolio * f)
      case None => None
  }

  /** `calculate_position_size`. */
  function PositionSize(e: Entry, portfolio: real, price: real, atr: Option<real>): (r: real)
    requires e.sizing == Some(VolatilityBased) ==> price != 0.0
    ensures e.sizing.None? ==> r == portfolio * FallbackFraction
    ensures e.sizing.Some? ==> r <= Cap(e, portfolio)
    ensures e.sizing.Some? ==>
              match Requested(e, portfolio, price, atr)
              case Some(q) => r == q || (r == Cap(e, portfolio) && Cap(e, portfolio) < q)
              case None => r == Cap(e, portfolio)
  {
    if e.sizing.None? then portfolio * FallbackFraction
    else
      match Requested(e, portfolio, price, atr)
      case Some(q) => MinReal(q, Cap(e, portfolio))
      case None => Cap(e, portfolio)
  }

  /** Sizing proportional to the portfolio scales with it: doubling the portfolio doubles
      the position, for every kind except a fixed dollar amount. */
  lemma {:induction false} PositionSizeScales(e: Entry, portfolio: real, k: real, price: real, atr: Option<real>)
    requires e.sizing.Some? && e.sizing != Some(FixedDollar)
    requires e.sizing == Some(VolatilityBased) ==> price != 0.0
    requires k >= 0.0
    ensures PositionSize(e, k * portfolio, price, atr) == k * PositionSize(e, portfolio, price, atr)
  {
    CapScales(e, portfolio, k);
    RequestedScales(e, portfolio, k, price, atr);
    match Requested(e, portfolio, price, atr)
    case None =>
    case Some(q) =>
      MinScales(k, q, Cap(e, portfolio));
  }

  lemma CapScales(e: Entry, portfolio: real, k: real)
    ensures Cap(e, k * portfolio) == k * Cap(e, portfolio)
  {
  }

  /** A proportional request scales with the portfolio; an infinite one stays infinite. */
  lemma RequestedScales(e: Entry, portfolio: real, k: real, price: real, atr: Option<real>)
    requires e.sizing.Some? && e.sizing != Some(FixedDollar)
    requires e.sizing == Some(VolatilityBased) ==> price != 0.0
    ensures Requested(e, k * portfolio, price, atr).Some? == Requested(e, portfolio, price, atr).Some?
    ensures Requested(e, portfolio, price, atr).Some? ==>
              Requested(e, k * portfolio, price, atr).value == k * Requested(e, portfolio, price, atr).value
  {
    match Rate(e, price, atr)
    case None =>
    case Some(f) =>
      assert (k * portfolio) * f == k * (portfolio * f);
  }

  lemma MinScales(k: real, q: real, cap: real)
    requires k >= 0.0
    ensures MinReal(k * q, k * cap) == k * MinReal(q, cap)
  {
    if cap < q {
      MulMonotone(k, cap, q);
    } else {
      MulMonotone(k, q, cap);
    }
  }

  lemma MulMonotone(k: real, a: real, b: real)
    requires k >= 0.0 && a <= b
    ensures k * a <= k * b
  {
  }

  /** Without an ATR value the volatility factor is 50, so the request is half the
      sizing value, as a percentage of the portfolio. */
  lemma VolatilityWithoutAtr(e: Entry, portfolio: real, price: real)
    requires e.sizing == Some(VolatilityBased) && price != 0.0
    ensures PositionSize(e, portfolio, price, None)
         == MinReal(portfolio * (e.sizingValue / 100.0) * 50.0, Cap(e, portfolio))
  {
    var a := price * DefaultAtrFraction;
    assert a / price == DefaultAtrFraction;
  }

  /** 100% sizing on a 10000 portfolio with no `maxPositionSize` is capped at the
      default 10%: 1000, not the whole portfolio. */
  lemma FullPortfolioIsCappedByDefault()
    ensures PositionSize(Entry(Some(FixedPercentage), 100.0, DefaultMaxPositionSize, DefaultRiskPerTrade, None),
                         10000.0, 1.15, None) == 1000.0
  {
  }

  /** With `maxPositionSize` 100, 100% sizing commits the whole portfolio. */
  lemma FullPortfolioWithFullCap()
    ensures PositionSize(Entry(Some(FixedPercentage), 100.0, 100.0, DefaultRiskPerTrade, None),
                         10000.0, 1.15, None) == 10000.0
  {
  }
}
