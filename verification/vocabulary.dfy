/** The closed vocabularies a strategy is written in: indicators, comparison operators,
    trade sides, position-sizing, stop-loss and take-profit kinds, and how conditions
    combine. Each kind has the wire name both the builder and the backend use. */
module Vocabulary {
  import opened Wrappers

  datatype Indicator = RSI | MACD | Close | SMA | EMA | BollingerBands | Stochastic | WilliamsR | ATR | Volume

  /** The indicator names in the order the backend lists them. */
  const IndicatorNames: seq<string> :=
    ["RSI", "MACD", "Close", "SMA", "EMA", "Bollinger_Bands", "Stochastic", "Williams_R", "ATR", "Volume"]

  function IndicatorName(i: Indicator): string {
    match i
    case RSI => "RSI"
    case MACD => "MACD"
    case Close => "Close"
    case SMA => "SMA"
    case EMA => "EMA"
    case BollingerBands => "Bollinger_Bands"
    case Stochastic => "Stochastic"
    case WilliamsR => "Williams_R"
    case ATR => "ATR"
    case Volume => "Volume"
  }

  function ParseIndicator(s: string): (r: Option<Indicator>)
    ensures r.Some? <==> s in IndicatorNames
    ensures r.Some? ==> IndicatorName(r.value) == s
  {
    if s == "RSI" then Some(RSI)
    else if s == "MACD" then Some(MACD)
    else if s == "Close" then Some(Close)
    else if s == "SMA" then Some(SMA)
    else if s == "EMA" then Some(EMA)
    else if s == "Bollinger_Bands" then Some(BollingerBands)
    else if s == "Stochastic" then Some(Stochastic)
    else if s == "Williams_R" then Some(WilliamsR)
    else if s == "ATR" then Some(ATR)
    else if s == "Volume" then Some(Volume)
    else None
  }

  lemma IndicatorNameParses(i: Indicator)
    ensures ParseIndicator(IndicatorName(i)) == Some(i)
  {
  }

  datatype Operator = LessThan | GreaterThan | CrossesAbove | CrossesBelow | Equals | NotEquals | Between | Outside {
    predicate IsCross() { this == CrossesAbove || this == CrossesBelow }
    predicate IsRange() { this == Between || this == Outside }
  }

  const OperatorNames: seq<string> :=
    ["less_than", "greater_than", "crosses_above", "crosses_below", "equals", "not_equals", "between", "outside"]

  function OperatorName(o: Operator): string {
    match o
    case LessThan => "less_than"
    case GreaterThan => "greater_than"
    case CrossesAbove => "crosses_above"
    case CrossesBelow => "crosses_below"
    case Equals => "equals"
    case NotEquals => "not_equals"
    case Between => "between"
    case Outside => "outside"
  }

  function ParseOperator(s: string): (r: Option<Operator>)
    ensures r.Some? <==> s in OperatorNames
    ensures r.Some? ==> OperatorName(r.value) == s
  {
    if s == "less_than" then Some(LessThan)
    else if s == "greater_than" then Some(GreaterThan)
    else if s == "crosses_above" then Some(CrossesAbove)
    else if s == "crosses_below" then Some(CrossesBelow)
    else if s == "equals" then Some(Equals)
    else if s == "not_equals" then Some(NotEquals)
    else if s == "between" then Some(Between)
    else if s == "outside" then Some(Outside)
    else None
  }

  lemma OperatorNameParses(o: Operator)
    ensures ParseOperator(OperatorName(o)) == Some(o)
  {
  }

  /** The side a strategy trades: `'LONG'` or `'SHORT'`. */
  datatype Side = Long | Short

  const SideNames: seq<string> := ["LONG", "SHORT"]

  function SideName(a: Side): string {
    match a
    case Long => "LONG"
    case Short => "SHORT"
  }

  function ParseSide(s: string): (r: Option<Side>)
    ensures r.Some? <==> s in SideNames
    ensures r.Some? ==> SideName(r.value) == s
  {
    if s == "LONG" then Some(Long) else if s == "SHORT" then Some(Short) else None
  }

  datatype SizingType = FixedPercentage | FixedDollar | KellyCriterion | RiskBased | VolatilityBased

  const SizingNames: seq<string> :=
    ["fixed_percentage", "fixed_dollar", "kelly_criterion", "risk_based", "volatility_based"]

  function SizingName(t: SizingType): string {
    match t
    case FixedPercentage => "fixed_percentage"
    case FixedDollar => "fixed_dollar"
    case KellyCriterion => "kelly_criterion"
    case RiskBased => "risk_based"
    case VolatilityBased => "volatility_based"
  }

  function ParseSizing(s: string): (r: Option<SizingType>)
    ensures r.Some? <==> s in SizingNames
    ensures r.Some? ==> SizingName(r.value) == s
  {
    if s == "fixed_percentage" then Some(FixedPercentage)
    else if s == "fixed_dollar" then Some(FixedDollar)
    else if s == "kelly_criterion" then Some(KellyCriterion)
    else if s == "risk_based" then Some(RiskBased)
    else if s == "volatility_based" then Some(VolatilityBased)
    else None
  }

  datatype StopLossType = StopFixedPercentage | StopFixedDollar | TrailingPercentage | TrailingDollar | AtrBased | SupportResistance

  const StopLossNames: seq<string> :=
    ["fixed_percentage", "fixed_dollar", "trailing_percentage", "trailing_dollar", "atr_based", "support_resistance"]

  function StopLossName(t: StopLossType): string {
    match t
    case StopFixedPercentage => "fixed_percentage"
    case StopFixedDollar => "fixed_dollar"
    case TrailingPercentage => "trailing_percentage"
    case TrailingDollar => "trailing_dollar"
    case AtrBased => "atr_based"
    case SupportResistance => "support_resistance"
  }

  function ParseStopLoss(s: string): (r: Option<StopLossType>)
    ensures r.Some? <==> s in StopLossNames
    ensures r.Some? ==> StopLossName(r.value) == s
  {
    if s == "fixed_percentage" then Some(StopFixedPercentage)
    else if s == "fixed_dollar" then Some(StopFixedDollar)
    else if s == "trailing_percentage" then Some(TrailingPercentage)
    else if s == "trailing_dollar" then Some(TrailingDollar)
    else if s == "atr_based" then Some(AtrBased)
    else if s == "support_resistance" then Some(SupportResistance)
    else None
  }

  datatype TakeProfitType = TargetFixedPercentage | TargetFixedDollar | RiskRewardRatio | IndicatorBased

  const TakeProfitNames: seq<string> :=
    ["fixed_percentage", "fixed_dollar", "risk_reward_ratio", "indicator_based"]

  function TakeProfitName(t: TakeProfitType): string {
    match t
    case TargetFixedPercentage => "fixed_percentage"
    case TargetFixedDollar => "fixed_dollar"
    case RiskRewardRatio => "risk_reward_ratio"
    case IndicatorBased => "indicator_based"
  }

  function ParseTakeProfit(s: string): (r: Option<TakeProfitType>)
    ensures r.Some? <==> s in TakeProfitNames
    ensures r.Some? ==> TakeProfitName(r.value) == s
  {
    if s == "fixed_percentage" then Some(TargetFixedPercentage)
    else if s == "fixed_dollar" then Some(TargetFixedDollar)
    else if s == "risk_reward_ratio" then Some(RiskRewardRatio)
    else if s == "indicator_based" then Some(IndicatorBased)
    else None
  }

  /** How the conditions of a strategy combine: all must hold, or any. */
  datatype Combinator = All | Any

  function CombinatorName(c: Combinator): string {
    match c
    case All => "AND"
    case Any => "OR"
  }
}
