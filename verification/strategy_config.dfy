/** A validated strategy configuration as the backtest engine reads it: the fields the
    signal generator, position sizer and exit checker look up, with the defaults they
    fall back to when a field is absent. */
module StrategyConfig {
  import opened Wrappers
  import opened Json
  import opened Numbers
  import opened Vocabulary
  import opened MarketData
  import opened StrategyValidation

  /** One entry condition as `generate_signals` reads it. `value`, `compareIndicator` and
      `compareValue` stay JSON: the generator converts them itself and skips the condition
      when that fails. */
  datatype SignalCondition = SignalCondition(
    indicator: Indicator, op: Operator, value: Json, compareIndicator: Json, compareValue: Json)

  /** Position sizing. `sizing` is None for a kind the sizer does not know. `volatilityColumn`
      is the `atr_<period>` column consulted by volatility sizing (None when the period
      cannot name a column). */
  datatype Entry = Entry(
    sizing: Option<SizingType>, sizingValue: real, maxPositionSize: real, riskPerTrade: real,
    volatilityColumn: Option<string>)

  datatype StopLoss = StopLoss(kind: StopLossType, value: real, atrColumn: Option<string>, level: real)

  /** `indicatorColumn` is the column an indicator-based target watches and `target` the
      threshold (None when the configured value is no number). */
  datatype TakeProfit = TakeProfit(
    kind: TakeProfitType, value: real, riskReward: real, indicatorColumn: string, target: Option<real>)

  datatype ExitRules = ExitRules(stopLoss: Option<StopLoss>, takeProfit: Option<TakeProfit>)

  datatype Strategy = Strategy(
    conditions: seq<SignalCondition>, combinator: Combinator, side: Side, entry: Entry, exit: ExitRules)

  /** Why the engine raises on a validated configuration: a field it does arithmetic on or
      compares holds something other than a number, or the take-profit indicator is a list
      or dict, which the name table cannot look up. */
  datatype DecodeError = NonNumericField(field: string) | UnhashableIndicator

  const DefaultSizingValue: real := 2.0
  const DefaultMaxPositionSize: real := 10.0
  const DefaultRiskPerTrade: real := 1.0
  const DefaultVolatilityPeriod: int := 20
  const DefaultAtrPeriod: int := 14
  const DefaultSupportLevel: real := 0.0
  const DefaultRiskReward: real := 2.0

  /** A JSON number as a real; None for anything else. */
  function ToNumber(v: Json): (r: Option<real>)
    ensures r.Some? <==> IsNumber(v)
  {
    if IsNumber(v) then ToFloat(v) else None
  }

  /** `d.get(key, default)` used in arithmetic: None when present but not a number. */
  function NumberOr(d: map<string, Json>, key: string, default: real): (r: Option<real>)
    ensures key !in d ==> r == Some(default)
    ensures key in d ==> (r.Some? <==> IsNumber(d[key]))
  {
    if key in d then ToNumber(d[key]) else Some(default)
  }

  /** The column named by `f'atr_{period}'`; None when `str(period)` names no indicator
      column (a float, boolean or structured period). */
  function AtrColumn(period: Json): (r: Option<string>)
    ensures r.Some? ==> StartsWithAtr(r.value)
  {
    match period
    case JInt(i) => Some("atr_" + IntToString(i))
    case JStr(s) => Some("atr_" + s)
    case _ => None
  }

  predicate StartsWithAtr(s: string) {
    |s| >= 4 && s[..4] == "atr_"
  }

  /** The JSON values Python cannot hash: a list or a dict. */
  predicate Unhashable(v: Json) {
    v.JArr? || v.JObj?
  }

  /** The column for a take-profit indicator name (exact-case lookup, `Close` for any other
      hashable value). */
  function TargetColumn(v: Json): (r: string)
    requires !Unhashable(v)
    ensures v.JStr? && ParseIndicator(v.s).Some? ==> r == IndicatorColumn(ParseIndicator(v.s).value)
    ensures !v.JStr? || ParseIndicator(v.s).None? ==> r == CloseColumn
  {
    if v.JStr? then
      match ParseIndicator(v.s)
      case Some(i) => IndicatorColumn(i)
      case None => CloseColumn
    else CloseColumn
  }

  /** `x` is what `d.get(key, default)` gives as a number: the field's value when present,
      the default otherwise. */
  predicate ReadsAs(d: map<string, Json>, key: string, default: real, x: real) {
    (key in d ==> ToNumber(d[key]) == Some(x)) && (key !in d ==> x == default)
  }

  /** A condition with its defaults: `value` 0, `compareIndicator` 'Close', and
      `compareValue` the condition's own `value`. */
  function DecodeCondition(c: Json): (r: SignalCondition)
    requires ConditionOk(c)
    ensures IndicatorName(r.indicator) == c.fields["indicator"].s
    ensures OperatorName(r.op) == c.fields["operator"].s
    ensures "value" in c.fields ==> r.value == c.fields["value"]
    ensures "value" !in c.fields ==> r.value == JInt(0)
    ensures "compareIndicator" in c.fields ==> r.compareIndicator == c.fields["compareIndicator"]
    ensures "compareIndicator" !in c.fields ==> r.compareIndicator == JStr("Close")
    ensures "compareValue" in c.fields ==> r.compareValue == c.fields["compareValue"]
    ensures "compareValue" !in c.fields ==> r.compareValue == r.value
  {
    var f := c.fields;
    SignalCondition(
      ParseIndicator(f["indicator"].s).value,
      ParseOperator(f["operator"].s).value,
      if "value" in f then f["value"] else JInt(0),
      if "compareIndicator" in f then f["compareIndicator"] else JStr(CloseColumn),
      if "compareValue" in f then f["compareValue"] else if "value" in f then f["value"] else JInt(0))
  }

  function DecodeConditions(cs: seq<Json>): (r: seq<SignalCondition>)
    requires forall k :: 0 <= k < |cs| ==> ConditionOk(cs[k])
    ensures |r| == |cs|
    ensures forall k :: 0 <= k < |cs| ==> r[k] == DecodeCondition(cs[k])
  {
    if |cs| == 0 then [] else [DecodeCondition(cs[0])] + DecodeConditions(cs[1..])
  }

  /** `maxPositionSize` is divided by every sizing kind, `riskPerTrade` only by
      risk-based sizing. */
  predicate EntryFieldsOk(e: map<string, Json>) {
    ("maxPositionSize" in e ==> IsNumber(e["maxPositionSize"]))
    && ("riskPerTrade" in e && "positionSizing" in e && e["positionSizing"] == JStr(SizingName(RiskBased))
        ==> IsNumber(e["riskPerTrade"]))
  }

  /** `supportResistanceLevel` is compared with the price only by a support/resistance stop. */
  predicate StopFieldsOk(s: map<string, Json>) {
    "supportResistanceLevel" in s && "type" in s && s["type"] == JStr(StopLossName(SupportResistance))
    ==> IsNumber(s["supportResistanceLevel"])
  }

  /** `riskRewardRatio` is multiplied only by a risk:reward target whose stop loss is a
      fixed percentage (`fixedStop`); `indicator` is looked up only by an indicator target. */
  predicate TargetFieldsOk(t: map<string, Json>, fixedStop: bool) {
    ("riskRewardRatio" in t && fixedStop && "type" in t && t["type"] == JStr(TakeProfitName(RiskRewardRatio))
     ==> IsNumber(t["riskRewardRatio"]))
    && ("indicator" in t && "type" in t && t["type"] == JStr(TakeProfitName(IndicatorBased))
        ==> !Unhashable(t["indicator"]))
  }

  /** The stop-loss part of an exit rule is a fixed-percentage stop. */
  predicate FixedStop(x: map<string, Json>) {
    "stopLoss" in x && x["stopLoss"].JObj? && "type" in x["stopLoss"].fields
    && x["stopLoss"].fields["type"] == JStr(StopLossName(StopFixedPercentage))
  }

  /** Every optional field the engine computes with, on the branch that reads it, holds
      something it can compute with. */
  predicate OptionalFieldsOk(config: Json)
    requires WellFormed(config)
  {
    var x := config.fields["exitCondition"].fields;
    EntryFieldsOk(config.fields["entryCondition"].fields)
    && ("stopLoss" in x ==> StopFieldsOk(x["stopLoss"].fields))
    && ("takeProfit" in x ==> TargetFieldsOk(x["takeProfit"].fields, FixedStop(x)))
  }

  /** The sizing part. A field the configured kind never reads keeps its default. */
  function DecodeEntry(e: Json): (r: Result<Entry, DecodeError>)
    requires EntryOk(e)
    ensures r.Ok? <==> EntryFieldsOk(e.fields)
    ensures r.Err? ==> r.error.NonNumericField?
    ensures r.Ok? ==> r.value.sizing.Some? && SizingName(r.value.sizing.value) == e.fields["positionSizing"].s
    ensures r.Ok? ==> Some(r.value.sizingValue) == ToFloat(e.fields["sizingValue"])
    ensures r.Ok? ==> ReadsAs(e.fields, "maxPositionSize", DefaultMaxPositionSize, r.value.maxPositionSize)
    ensures r.Ok? && r.value.sizing == Some(RiskBased) ==>
              ReadsAs(e.fields, "riskPerTrade", DefaultRiskPerTrade, r.value.riskPerTrade)
  {
    var f := e.fields;
    var sizing := ParseSizing(f["positionSizing"].s);
    var maxSize := NumberOr(f, "maxPositionSize", DefaultMaxPositionSize);
    var risk := NumberOr(f, "riskPerTrade", DefaultRiskPerTrade);
    if sizing == Some(RiskBased) && risk.None? then Err(NonNumericField("riskPerTrade"))
    else if maxSize.None? then Err(NonNumericField("maxPositionSize"))
    else
      Ok(Entry(
        sizing,
        ToNumber(f["sizingValue"]).value,
        maxSize.value,
        risk.GetOr(DefaultRiskPerTrade),
        AtrColumn(if "volatilityPeriod" in f then f["volatilityPeriod"] else JInt(DefaultVolatilityPeriod))))
  }

  /** The stop-loss part. The level keeps its default unless the stop is a
      support/resistance stop. */
  function DecodeStopLoss(s: Json): (r: Result<StopLoss, DecodeError>)
    requires PartOk(s, StopLossNames)
    ensures r.Ok? <==> StopFieldsOk(s.fields)
    ensures r.Err? ==> r == Err(NonNumericField("supportResistanceLevel"))
    ensures r.Ok? ==> StopLossName(r.value.kind) == s.fields["type"].s
    ensures r.Ok? ==> Some(r.value.value) == ToFloat(s.fields["value"])
    ensures r.Ok? && r.value.kind == SupportResistance ==>
              ReadsAs(s.fields, "supportResistanceLevel", DefaultSupportLevel, r.value.level)
  {
    var f := s.fields;
    var kind := ParseStopLoss(f["type"].s).value;
    var level := NumberOr(f, "supportResistanceLevel", DefaultSupportLevel);
    if kind == SupportResistance && level.None? then Err(NonNumericField("supportResistanceLevel"))
    else
      Ok(StopLoss(
        kind,
        ToNumber(f["value"]).value,
        AtrColumn(if "atrPeriod" in f then f["atrPeriod"] else JInt(DefaultAtrPeriod)),
        level.GetOr(DefaultSupportLevel)))
  }

  /** The take-profit part; `fixedStop` tells whether the stop loss is a fixed percentage.
      The ratio keeps its default unless a risk:reward target reads it, the indicator
      column is `Close` unless an indicator target looks it up. */
  function DecodeTakeProfit(t: Json, fixedStop: bool): (r: Result<TakeProfit, DecodeError>)
    requires PartOk(t, TakeProfitNames)
    ensures r.Ok? <==> TargetFieldsOk(t.fields, fixedStop)
    ensures r.Ok? ==> TakeProfitName(r.value.kind) == t.fields["type"].s
    ensures r.Ok? ==> Some(r.value.value) == ToFloat(t.fields["value"])
    ensures r.Ok? && r.value.kind == RiskRewardRatio && fixedStop ==>
              ReadsAs(t.fields, "riskRewardRatio", DefaultRiskReward, r.value.riskReward)
    ensures r.Ok? && r.value.kind == IndicatorBased ==>
              r.value.indicatorColumn == TargetColumn(if "indicator" in t.fields then t.fields["indicator"] else JStr(IndicatorName(RSI)))
  {
    var f := t.fields;
    var kind := ParseTakeProfit(f["type"].s).value;
    var ratio := NumberOr(f, "riskRewardRatio", DefaultRiskReward);
    var indicator := if "indicator" in f then f["indicator"] else JStr(IndicatorName(RSI));
    if kind == RiskRewardRatio && fixedStop && ratio.None? then Err(NonNumericField("riskRewardRatio"))
    else if kind == IndicatorBased && Unhashable(indicator) then Err(UnhashableIndicator)
    else
      Ok(TakeProfit(
        kind,
        ToNumber(f["value"]).value,
        ratio.GetOr(DefaultRiskReward),
        if kind == IndicatorBased && !Unhashable(indicator) then TargetColumn(indicator) else CloseColumn,
        ToFloat(if "indicatorValue" in f then f["indicatorValue"] else JStr("70"))))
  }

  /** An indicator target with neither `indicator` nor `indicatorValue` watches RSI and
      fires above 70. */
  lemma IndicatorTargetDefaults(t: Json, fixedStop: bool)
    requires PartOk(t, TakeProfitNames) && t.fields["type"] == JStr(TakeProfitName(IndicatorBased))
    requires "indicator" !in t.fields && "indicatorValue" !in t.fields
    ensures DecodeTakeProfit(t, fixedStop).Ok?
    ensures DecodeTakeProfit(t, fixedStop).value.indicatorColumn == "rsi"
    ensures DecodeTakeProfit(t, fixedStop).value.target == Some(70.0)
  {
    SeventyParses();
    assert ParseIndicator(IndicatorName(RSI)) == Some(RSI);
  }

  lemma SeventyParses()
    ensures ToFloat(JStr("70")) == Some(70.0)
  {
    PyFloatOfIntToString(70);
    SeventyText();
  }

  lemma SeventyText()
    ensures IntToString(70) == "70"
  {
    assert DigitChar(7) == '7' && DigitChar(0) == '0';
    assert NatToString(7) == ['7'];
    assert NatToString(70) == NatToString(7) + [DigitChar(0)];
  }

  /** `logicalOperator` other than `'OR'` (including an absent one) means all conditions. */
  function DecodeCombinator(config: map<string, Json>): (r: Combinator)
    ensures r == Any <==> "logicalOperator" in config && config["logicalOperator"] == JStr("OR")
  {
    if "logicalOperator" in config && config["logicalOperator"] == JStr("OR") then Any else All
  }

  /** The engine's reading of a validated configuration; fails only when an optional
      field that its configured branch reads holds something it cannot compute with. */
  function Decode(config: Json): (r: Result<Strategy, DecodeError>)
    requires WellFormed(config)
    ensures r.Ok? <==> OptionalFieldsOk(config)
    ensures r.Ok? ==>
              && |r.value.conditions| == |config.fields["conditions"].items|
              && (forall k :: 0 <= k < |r.value.conditions| ==>
                    r.value.conditions[k] == DecodeCondition(config.fields["conditions"].items[k]))
              && (r.value.combinator == Any <==> "logicalOperator" in config.fields && config.fields["logicalOperator"] == JStr("OR"))
              && SideName(r.value.side) == config.fields["action"].s
              && Ok(r.value.entry) == DecodeEntry(config.fields["entryCondition"])
              && (r.value.exit.stopLoss.Some? <==> "stopLoss" in config.fields["exitCondition"].fields)
              && (r.value.exit.takeProfit.Some? <==> "takeProfit" in config.fields["exitCondition"].fields)
              && (r.value.exit.stopLoss.Some? ==>
                    Ok(r.value.exit.stopLoss.value) == DecodeStopLoss(config.fields["exitCondition"].fields["stopLoss"]))
              && (r.value.exit.takeProfit.Some? ==>
                    Ok(r.value.exit.takeProfit.value)
                    == DecodeTakeProfit(config.fields["exitCondition"].fields["takeProfit"],
                                        FixedStop(config.fields["exitCondition"].fields)))
  {
    var f := config.fields;
    var x := f["exitCondition"].fields;
    var entry := DecodeEntry(f["entryCondition"]);
    var stop := if "stopLoss" in x then
                  (match DecodeStopLoss(x["stopLoss"])
                   case Ok(s) => Ok(Some(s))
                   case Err(e) => Err(e))
                else Ok(None);
    var target := if "takeProfit" in x then
                    (match DecodeTakeProfit(x["takeProfit"], FixedStop(x))
                     case Ok(t) => Ok(Some(t))
                     case Err(e) => Err(e))
                  else Ok(None);
    if entry.Err? then Err(entry.error)
    else if stop.Err? then Err(stop.error)
    else if target.Err? then Err(target.error)
    else
      Ok(Strategy(
        DecodeConditions(f["conditions"].items),
        DecodeCombinator(f),
        ParseSide(f["action"].s).value,
        entry.value,
        ExitRules(stop.value, target.value)))
  }
}
