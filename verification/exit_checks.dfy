/** When an open position is closed (`should_exit_position_enhanced`): the stop-loss rule
    is checked first, then the take-profit rule; either may fire, and when both do the
    take-profit reason is the one reported. */
module ExitChecks {
  import opened Wrappers
  import opened Numbers
  import opened Vocabulary
  import opened MarketData
  import opened StrategyConfig

  datatype ExitReason =
    | StopLossPercent(value: real)
    | StopLossDollars(value: real)
    | TrailingStop(value: real)
    | AtrStop(multiple: real)
    | SupportLevel(level: real)
    | ResistanceLevel(level: real)
    | TakeProfitPercent(value: real)
    | TakeProfitDollars(value: real)
    | RiskReward(ratio: real)
    | IndicatorAbove(column: string, target: real)

  /** The price move in the position's favour: up for a long, down for a short. */
  function Gain(side: Side, entry: real, price: real): real {
    match side
    case Long => price - entry
    case Short => entry - price
  }

  /** The favourable move as a percentage of the entry price. */
  function GainPercent(side: Side, entry: real, price: real): real
    requires entry != 0.0
  {
    (Gain(side, entry, price) / entry) * 100.0
  }

  /** The running extreme a trailing stop measures from: the highest price since entry
      for a long, the lowest for a short, including the current price. */
  function Extreme(side: Side, tracked: real, price: real): real {
    match side
    case Long => MaxReal(tracked, price)
    case Short => MinReal(tracked, price)
  }

  /** How far the price has come back from the extreme `x`, as a percentage of it. */
  function Retrace(side: Side, x: real, price: real): real
    requires x != 0.0
  {
    match side
    case Long => ((x - price) / x) * 100.0
    case Short => ((price - x) / x) * 100.0
  }

  /** Measured from the entry price, the retrace is the loss percentage, or 0 while the
      position is not losing. */
  lemma RetraceFromEntry(side: Side, entry: real, price: real)
    requires 0.0 < entry && 0.0 < price
    ensures Retrace(side, Extreme(side, entry, price), price) == MaxReal(0.0, -GainPercent(side, entry, price))
  {
    var x := Extreme(side, entry, price);
    var g := Gain(side, entry, price);
    if g < 0.0 {
      assert x == entry;
      assert Retrace(side, x, price) == ((-g) / entry) * 100.0;
      assert -GainPercent(side, entry, price) == ((-g) / entry) * 100.0;
      assert (-g) / entry > 0.0;
    } else {
      assert x == price;
      assert Retrace(side, x, price) == 0.0;
      assert g / entry >= 0.0;
    }
  }

  /** The stop-loss rule at the current bar; None when it does not fire. `tracked` is the
      extreme the caller passes for a trailing stop. */
  function StopLossHit(sl: StopLoss, side: Side, entry: real, price: real, tracked: real,
                       frame: Frame, t: nat): (r: Option<ExitReason>)
    requires 0.0 < entry && 0.0 < price && 0.0 < tracked && t < |frame.bars|
    ensures sl.kind == TrailingDollar ==> r.None?
    ensures sl.kind == StopFixedDollar && sl.value > 0.0 && r.Some? ==> Gain(side, entry, price) < 0.0
  {
    match sl.kind
    case StopFixedPercentage =>
      if -GainPercent(side, entry, price) >= sl.value then Some(StopLossPercent(sl.value)) else None
    case StopFixedDollar =>
      if -Gain(side, entry, price) >= sl.value then Some(StopLossDollars(sl.value)) else None
    case TrailingPercentage =>
      var x := Extreme(side, tracked, price);
      if Retrace(side, x, price) >= sl.value then Some(TrailingStop(sl.value)) else None
    case TrailingDollar => None
    case AtrBased =>
      if sl.atrColumn.None? then None
      else
        (match Cell(frame, t, sl.atrColumn.value)
         case None => None
         case Some(atr) =>
           var hit := (match side
             case Long => price <= entry - atr * sl.value
             case Short => price >= entry + atr * sl.value);
           if hit then Some(AtrStop(sl.value)) else None)
    case SupportResistance =>
      match side
      case Long => if price <= sl.level then Some(SupportLevel(sl.level)) else None
      case Short => if price >= sl.level then Some(ResistanceLevel(sl.level)) else None
  }

  /** The take-profit rule at the current bar; `stop` is the configured stop loss, which
      a risk:reward target measures its risk from. */
  function TakeProfitHit(tp: TakeProfit, stop: Option<StopLoss>, side: Side, entry: real, price: real,
                         frame: Frame, t: nat): (r: Option<ExitReason>)
    requires 0.0 < entry && t < |frame.bars|
    ensures tp.kind == RiskRewardRatio && (stop.None? || stop.value.kind != StopFixedPercentage) ==> r.None?
    ensures tp.kind == IndicatorBased && tp.target.None? ==> r.None?
  {
    match tp.kind
    case TargetFixedPercentage =>
      if GainPercent(side, entry, price) >= tp.value then Some(TakeProfitPercent(tp.value)) else None
    case TargetFixedDollar =>
      if Gain(side, entry, price) >= tp.value then Some(TakeProfitDollars(tp.value)) else None
    case RiskRewardRatio =>
      if stop.Some? && stop.value.kind == StopFixedPercentage then
        var risk := entry * (stop.value.value / 100.0);
        var targetProfit := risk * tp.riskReward;
        var hit := (match side
          case Long => price >= entry + targetProfit
          case Short => price <= entry - targetProfit);
        if hit then Some(RiskReward(tp.riskReward)) else None
      else None
    case IndicatorBased =>
      match Cell(frame, t, tp.indicatorColumn)
      case None => None
      case Some(v) =>
        if tp.target.Some? && v > tp.target.value then Some(IndicatorAbove(tp.indicatorColumn, tp.target.value))
        else None
  }

  /** `should_exit_position_enhanced`: whether to close, and the reason reported. */
  function ShouldExit(rules: ExitRules, side: Side, entry: real, price: real, tracked: real,
                      frame: Frame, t: nat): (r: Option<ExitReason>)
    requires 0.0 < entry && 0.0 < price && 0.0 < tracked && t < |frame.bars|
    ensures rules.stopLoss.None? && rules.takeProfit.None? ==> r.None?
    ensures r.Some? <==>
              (rules.stopLoss.Some? && StopLossHit(rules.stopLoss.value, side, entry, price, tracked, frame, t).Some?)
              || (rules.takeProfit.Some? && TakeProfitHit(rules.takeProfit.value, rules.stopLoss, side, entry, price, frame, t).Some?)
    ensures (rules.takeProfit.Some? && TakeProfitHit(rules.takeProfit.value, rules.stopLoss, side, entry, price, frame, t).Some?)
              ==> r == TakeProfitHit(rules.takeProfit.value, rules.stopLoss, side, entry, price, frame, t)
  {
    var stop := if rules.stopLoss.Some? then StopLossHit(rules.stopLoss.value, side, entry, price, tracked, frame, t) else None;
    var target := if rules.takeProfit.Some? then TakeProfitHit(rules.takeProfit.value, rules.stopLoss, side, entry, price, frame, t) else None;
    if target.Some? then target else stop
  }

  // ---- Price-level readings of the percentage rules ----

  /** A fixed-percentage stop of `v` percent fires exactly when the price has moved
      against the position to the stop price `entry * (1 -/+ v/100)`. */
  lemma FixedStopIsPriceLevel(sl: StopLoss, side: Side, entry: real, price: real, tracked: real, frame: Frame, t: nat)
    requires 0.0 < entry && 0.0 < price && 0.0 < tracked && t < |frame.bars|
    requires sl.kind == StopFixedPercentage
    ensures StopLossHit(sl, side, entry, price, tracked, frame, t).Some? <==>
              match side
              case Long => price <= entry * (1.0 - sl.value / 100.0)
              case Short => price >= entry * (1.0 + sl.value / 100.0)
  {
    var g := Gain(side, entry, price);
    assert -GainPercent(side, entry, price) == ((-g) / entry) * 100.0;
    PercentThreshold(-g, entry, sl.value);
  }

  /** `(d / e) * 100 >= v` is `d >= e * v / 100` for a positive `e`. */
  lemma PercentThreshold(d: real, e: real, v: real)
    requires e > 0.0
    ensures (d / e) * 100.0 >= v <==> d >= e * (v / 100.0)
  {
    var q := d / e;
    assert d == q * e;
    if q * 100.0 >= v {
      assert q >= v / 100.0;
      MulMonotoneReal(e, v / 100.0, q);
    } else {
      assert q < v / 100.0;
      MulStrictReal(e, q, v / 100.0);
    }
  }

  lemma MulMonotoneReal(k: real, a: real, b: real)
    requires k >= 0.0 && a <= b
    ensures k * a <= k * b
  {
  }

  lemma MulStrictReal(k: real, a: real, b: real)
    requires k > 0.0 && a < b
    ensures k * a < k * b
  {
  }

  /** A risk:reward target with a fixed-percentage stop of `s` percent and ratio `k` is a
      fixed-percentage profit target of `s * k` percent. */
  lemma RiskRewardIsPercentTarget(tp: TakeProfit, sl: StopLoss, side: Side, entry: real, price: real, frame: Frame, t: nat)
    requires 0.0 < entry && t < |frame.bars|
    requires tp.kind == RiskRewardRatio && sl.kind == StopFixedPercentage
    ensures TakeProfitHit(tp, Some(sl), side, entry, price, frame, t).Some?
        <==> GainPercent(side, entry, price) >= sl.value * tp.riskReward
  {
    var g := Gain(side, entry, price);
    var targetProfit := entry * (sl.value / 100.0) * tp.riskReward;
    assert targetProfit == entry * ((sl.value * tp.riskReward) / 100.0);
    PercentThreshold(g, entry, sl.value * tp.riskReward);
  }

  /** A trailing stop that is handed the entry price as its extreme behaves as a fixed
      stop from the entry: it fires exactly when the fixed-percentage stop of the same
      size would (for a positive size). */
  lemma TrailingFromEntryIsFixedStop(sl: StopLoss, side: Side, entry: real, price: real, frame: Frame, t: nat)
    requires 0.0 < entry && 0.0 < price && t < |frame.bars|
    requires sl.kind == TrailingPercentage && sl.value > 0.0
    ensures StopLossHit(sl, side, entry, price, entry, frame, t).Some?
        <==> StopLossHit(sl.(kind := StopFixedPercentage), side, entry, price, entry, frame, t).Some?
  {
    RetraceFromEntry(side, entry, price);
  }
}
