/** The backend's check of a strategy configuration before a backtest runs
    (`validate_strategy_config`): the first violated rule, in the order the
    backend tests them, is reported. */
module StrategyValidation {
  import opened Wrappers
  import opened Json
  import opened Vocabulary

  /** Which `ValueError` the validator raises. */
  datatype ConfigError =
    | NotADict
    | MissingConditions
    | ConditionsNotAList
    | NoConditions
    | ConditionNotADict(index: nat)
    | ConditionMissingField(index: nat, field: string)
    | InvalidOperator(index: nat)
    | InvalidIndicator(index: nat)
    | MissingAction
    | InvalidAction
    | MissingEntryCondition
    | EntryNotADict
    | MissingPositionSizing
    | InvalidPositionSizing
    | NonNumericSizingValue
    | MissingExitCondition
    | ExitNotADict
    | StopLossNotADict
    | StopLossMissingType
    | InvalidStopLossType
    | NonNumericStopLossValue
    | TakeProfitNotADict
    | TakeProfitMissingType
    | InvalidTakeProfitType
    | NonNumericTakeProfitValue
  {
    predicate AboutCondition() {
      ConditionNotADict? || ConditionMissingField? || InvalidOperator? || InvalidIndicator?
    }
  }

  // ---- What a well-formed configuration is, stated declaratively ----

  predicate ConditionOk(c: Json) {
    c.JObj? && "indicator" in c.fields && "operator" in c.fields
    && IsOneOf(c.fields["operator"], OperatorNames)
    && IsOneOf(c.fields["indicator"], IndicatorNames)
  }

  predicate EntryOk(e: Json) {
    e.JObj? && "positionSizing" in e.fields && IsOneOf(e.fields["positionSizing"], SizingNames)
    && "sizingValue" in e.fields && IsNumber(e.fields["sizingValue"])
  }

  /** A stop-loss or take-profit part: a dict with a known `type` and a numeric `value`. */
  predicate PartOk(p: Json, types: seq<string>) {
    p.JObj? && "type" in p.fields && IsOneOf(p.fields["type"], types)
    && "value" in p.fields && IsNumber(p.fields["value"])
  }

  predicate ExitOk(x: Json) {
    x.JObj?
    && ("stopLoss" in x.fields ==> PartOk(x.fields["stopLoss"], StopLossNames))
    && ("takeProfit" in x.fields ==> PartOk(x.fields["takeProfit"], TakeProfitNames))
  }

  predicate WellFormed(config: Json) {
    config.JObj?
    && "conditions" in config.fields && config.fields["conditions"].JArr?
    && |config.fields["conditions"].items| > 0
    && (forall k :: 0 <= k < |config.fields["conditions"].items| ==> ConditionOk(config.fields["conditions"].items[k]))
    && "action" in config.fields && IsOneOf(config.fields["action"], SideNames)
    && "entryCondition" in config.fields && EntryOk(config.fields["entryCondition"])
    && "exitCondition" in config.fields && ExitOk(config.fields["exitCondition"])
  }

  // ---- The validator, in the backend's order of checks ----

  /** The checks on condition number `i`: dict, `indicator` then `operator` present,
      operator known, indicator known. */
  function CheckCondition(i: nat, c: Json): (r: Outcome<ConfigError>)
    ensures r.Pass? <==> ConditionOk(c)
    ensures r.Fail? ==> r.error.AboutCondition() && r.error.index == i
    ensures r == Fail(ConditionNotADict(i)) <==> !c.JObj?
    ensures r == Fail(ConditionMissingField(i, "indicator")) <==> c.JObj? && "indicator" !in c.fields
    ensures r == Fail(ConditionMissingField(i, "operator"))
        <==> c.JObj? && "indicator" in c.fields && "operator" !in c.fields
    ensures r == Fail(InvalidOperator(i))
        <==> c.JObj? && "indicator" in c.fields && "operator" in c.fields
             && !IsOneOf(c.fields["operator"], OperatorNames)
    ensures r == Fail(InvalidIndicator(i))
        <==> c.JObj? && "indicator" in c.fields && "operator" in c.fields
             && IsOneOf(c.fields["operator"], OperatorNames) && !IsOneOf(c.fields["indicator"], IndicatorNames)
  {
    if !c.JObj? then Fail(ConditionNotADict(i))
    else if "indicator" !in c.fields then Fail(ConditionMissingField(i, "indicator"))
    else if "operator" !in c.fields then Fail(ConditionMissingField(i, "operator"))
    else if !IsOneOf(c.fields["operator"], OperatorNames) then Fail(InvalidOperator(i))
    else if !IsOneOf(c.fields["indicator"], IndicatorNames) then Fail(InvalidIndicator(i))
    else Pass
  }

  /** The conditions from index `from` on, in order; the first bad one is reported. */
  function CheckConditions(cs: seq<Json>, from: nat): (r: Outcome<ConfigError>)
    requires from <= |cs|
    ensures r.Pass? <==> forall k :: from <= k < |cs| ==> ConditionOk(cs[k])
    ensures r.Fail? ==>
              && r.error.AboutCondition() && from <= r.error.index < |cs|
              && !ConditionOk(cs[r.error.index])
              && (forall k :: from <= k < r.error.index ==> ConditionOk(cs[k]))
    decreases |cs| - from
  {
    if from == |cs| then Pass
    else
      match CheckCondition(from, cs[from])
      case Fail(e) => Fail(e)
      case Pass => CheckConditions(cs, from + 1)
  }

  function CheckPart(p: Json, types: seq<string>, notDict: ConfigError, missingType: ConfigError,
                     badType: ConfigError, nonNumeric: ConfigError): (r: Outcome<ConfigError>)
    ensures r.Pass? <==> PartOk(p, types)
    ensures r.Fail? ==> r.error in [notDict, missingType, badType, nonNumeric]
  {
    if !p.JObj? then Fail(notDict)
    else if "type" !in p.fields then Fail(missingType)
    else if !IsOneOf(p.fields["type"], types) then Fail(badType)
    else if "value" !in p.fields || !IsNumber(p.fields["value"]) then Fail(nonNumeric)
    else Pass
  }

  function CheckEntry(e: Json): (r: Outcome<ConfigError>)
    ensures r.Pass? <==> EntryOk(e)
  {
    if !e.JObj? then Fail(EntryNotADict)
    else if "positionSizing" !in e.fields then Fail(MissingPositionSizing)
    else if !IsOneOf(e.fields["positionSizing"], SizingNames) then Fail(InvalidPositionSizing)
    else if "sizingValue" !in e.fields || !IsNumber(e.fields["sizingValue"]) then Fail(NonNumericSizingValue)
    else Pass
  }

  function CheckExit(x: Json): (r: Outcome<ConfigError>)
    ensures r.Pass? <==> ExitOk(x)
  {
    if !x.JObj? then Fail(ExitNotADict)
    else
      var stop :=
        if "stopLoss" in x.fields then
          CheckPart(x.fields["stopLoss"], StopLossNames,
                    StopLossNotADict, StopLossMissingType, InvalidStopLossType, NonNumericStopLossValue)
        else Pass;
      if stop.Fail? then stop
      else if "takeProfit" in x.fields then
        CheckPart(x.fields["takeProfit"], TakeProfitNames,
                  TakeProfitNotADict, TakeProfitMissingType, InvalidTakeProfitType, NonNumericTakeProfitValue)
      else Pass
  }

  /** `validate_strategy_config`: passes exactly on well-formed configurations. */
  function Validate(config: Json): (r: Outcome<ConfigError>)
    ensures r.Pass? <==> WellFormed(config)
  {
    if !config.JObj? then Fail(NotADict)
    else if "conditions" !in config.fields then Fail(MissingConditions)
    else if !config.fields["conditions"].JArr? then Fail(ConditionsNotAList)
    else if |config.fields["conditions"].items| == 0 then Fail(NoConditions)
    else
      match CheckConditions(config.fields["conditions"].items, 0)
      case Fail(e) => Fail(e)
      case Pass =>
        if "action" !in config.fields then Fail(MissingAction)
        else if !IsOneOf(config.fields["action"], SideNames) then Fail(InvalidAction)
        else if "entryCondition" !in config.fields then Fail(MissingEntryCondition)
        else
          match CheckEntry(config.fields["entryCondition"])
          case Fail(e) => Fail(e)
          case Pass =>
            if "exitCondition" !in config.fields then Fail(MissingExitCondition)
            else CheckExit(config.fields["exitCondition"])
  }

  /** A condition-level error names the first bad condition, and it is only reported
      when the top-level shape of the configuration is right. */
  lemma ConditionErrorIsFirst(config: Json)
    requires Validate(config).Fail? && Validate(config).error.AboutCondition()
    ensures config.JObj? && "conditions" in config.fields && config.fields["conditions"].JArr?
    ensures var cs := config.fields["conditions"].items;
      var k := Validate(config).error.index;
      k < |cs| && !ConditionOk(cs[k]) && forall j :: 0 <= j < k ==> ConditionOk(cs[j])
  {
  }

  /** Checks on the action, entry and exit are only reached once every condition is fine. */
  lemma LaterErrorsImplyConditionsOk(config: Json)
    requires Validate(config).Fail?
    requires Validate(config).error !in [NotADict, MissingConditions, ConditionsNotAList, NoConditions]
    requires !Validate(config).error.AboutCondition()
    ensures config.JObj? && "conditions" in config.fields && config.fields["conditions"].JArr?
    ensures forall k :: 0 <= k < |config.fields["conditions"].items| ==> ConditionOk(config.fields["conditions"].items[k])
  {
  }
}
