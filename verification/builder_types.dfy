/** The builder's constant tables: the tunable parameters of each indicator with their
    defaults, and the one-click presets for position sizing, stop loss and take profit. */
module BuilderTypes {
  import opened Wrappers
  import opened Vocabulary

  /** A parameter name and its default value. */
  type Param = (string, int)

  /** `INDICATOR_PARAMS[i]`, in declaration order. */
  function IndicatorParams(i: Indicator): seq<Param> {
    match i
    case RSI => [("period", 14)]
    case MACD => [("fast_period", 12), ("slow_period", 26), ("signal_period", 9)]
    case SMA => [("period", 20)]
    case EMA => [("period", 20)]
    case BollingerBands => [("period", 20), ("upper_band", 2), ("lower_band", 2)]
    case Stochastic => [("k_period", 14), ("d_period", 3)]
    case WilliamsR => [("period", 14)]
    case ATR => [("period", 14)]
    case Volume => []
    case Close => []
  }

  /** `INDICATOR_PARAMS[name]` for any string; None stands for `undefined`. */
  function ParamsNamed(name: string): (r: Option<seq<Param>>)
    ensures r.Some? <==> name in IndicatorNames
    ensures r.Some? ==> exists i :: IndicatorName(i) == name && r.value == IndicatorParams(i)
  {
    match ParseIndicator(name)
    case Some(i) => Some(IndicatorParams(i))
    case None => None
  }

  /** The default of a named parameter, when the list has it. */
  function DefaultOf(ps: seq<Param>, key: string): Option<int> {
    if |ps| == 0 then None else if ps[0].0 == key then Some(ps[0].1) else DefaultOf(ps[1..], key)
  }

  /** Only volume and price have no parameters; every default is positive. */
  lemma ParamsShape(i: Indicator)
    ensures |IndicatorParams(i)| == 0 <==> i == Volume || i == Close
    ensures forall k :: 0 <= k < |IndicatorParams(i)| ==> IndicatorParams(i)[k].1 > 0
  {
  }

  /** The periods the builder defaults to: MACD 12/26/9, Bollinger 20/2/2,
      stochastic 14/3, and 14 for RSI, Williams %R and ATR. */
  lemma ParamDefaults()
    ensures DefaultOf(IndicatorParams(MACD), "fast_period") == Some(12)
    ensures DefaultOf(IndicatorParams(MACD), "slow_period") == Some(26)
    ensures DefaultOf(IndicatorParams(MACD), "signal_period") == Some(9)
    ensures DefaultOf(IndicatorParams(BollingerBands), "upper_band") == Some(2)
    ensures DefaultOf(IndicatorParams(BollingerBands), "lower_band") == Some(2)
    ensures DefaultOf(IndicatorParams(Stochastic), "d_period") == Some(3)
    ensures DefaultOf(IndicatorParams(Stochastic), "k_period") == Some(14)
    ensures DefaultOf(IndicatorParams(RSI), "period") == Some(14)
    ensures DefaultOf(IndicatorParams(WilliamsR), "period") == Some(14)
    ensures DefaultOf(IndicatorParams(ATR), "period") == Some(14)
    ensures DefaultOf(IndicatorParams(SMA), "period") == Some(20)
    ensures DefaultOf(IndicatorParams(EMA), "period") == Some(20)
    ensures DefaultOf(IndicatorParams(BollingerBands), "period") == Some(20)
  {
  }

  /** A preset button: its title, the kind it selects, its value, and for a take-profit
      preset the indicator it watches. */
  datatype Preset = Preset(title: string, kind: string, value: int, indicator: Option<string>, description: string)

  const SizingPresets: seq<Preset> := [
    Preset("2% Portfolio", "fixed_percentage", 2, None, "Use 2% of portfolio per trade"),
    Preset("$1000 Fixed", "fixed_dollar", 1000, None, "Fixed $1000 per trade"),
    Preset("1% Risk", "risk_based", 1, None, "Risk 1% of portfolio per trade"),
    Preset("Kelly Criterion", "kelly_criterion", 0, None, "Dynamic sizing based on win rate and odds")
  ]

  const StopLossPresets: seq<Preset> := [
    Preset("2% Stop Loss", "fixed_percentage", 2, None, "Fixed 2% stop loss"),
    Preset("5% Stop Loss", "fixed_percentage", 5, None, "Fixed 5% stop loss"),
    Preset("2x ATR Stop", "atr_based", 2, None, "Stop loss at 2x ATR from entry"),
    Preset("10% Trailing Stop", "trailing_percentage", 10, None, "Trailing 10% stop loss")
  ]

  const TakeProfitPresets: seq<Preset> := [
    Preset("1:2 Risk:Reward", "risk_reward_ratio", 2, None, "Take profit at 2x the risk"),
    Preset("5% Profit Target", "fixed_percentage", 5, None, "Fixed 5% profit target"),
    Preset("10% Profit Target", "fixed_percentage", 10, None, "Fixed 10% profit target"),
    Preset("RSI > 70 Exit", "indicator_based", 70, Some("RSI"), "Exit when RSI exceeds 70")
  ]

  /** Every preset selects a kind of its own vocabulary, and a take-profit preset's
      indicator is a known one. */
  lemma PresetsWellTyped()
    ensures forall p :: p in SizingPresets ==> p.kind in SizingNames
    ensures forall p :: p in StopLossPresets ==> p.kind in StopLossNames
    ensures forall p :: p in TakeProfitPresets ==> p.kind in TakeProfitNames
    ensures forall p :: p in TakeProfitPresets && p.indicator.Some? ==> p.indicator.value in IndicatorNames
  {
    SizingPresetsWellTyped();
    StopLossPresetsWellTyped();
    TakeProfitPresetsWellTyped();
  }

  lemma SizingPresetsWellTyped()
    ensures forall p :: p in SizingPresets ==> p.kind in SizingNames
  {
    assert "fixed_percentage" in SizingNames && "fixed_dollar" in SizingNames;
    assert "risk_based" in SizingNames && "kelly_criterion" in SizingNames;
  }

  lemma StopLossPresetsWellTyped()
    ensures forall p :: p in StopLossPresets ==> p.kind in StopLossNames
  {
    assert "fixed_percentage" in StopLossNames && "atr_based" in StopLossNames;
    assert "trailing_percentage" in StopLossNames;
  }

  lemma TakeProfitPresetsWellTyped()
    ensures forall p :: p in TakeProfitPresets ==> p.kind in TakeProfitNames
    ensures forall p :: p in TakeProfitPresets && p.indicator.Some? ==> p.indicator.value in IndicatorNames
  {
    assert "risk_reward_ratio" in TakeProfitNames && "fixed_percentage" in TakeProfitNames;
    assert "indicator_based" in TakeProfitNames && "RSI" in IndicatorNames;
  }
}
