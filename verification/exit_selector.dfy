/** The exit-rule editor: applying a stop-loss or take-profit preset, editing one field
    of either part, filling in missing parts when the editor opens, and the one-line
    description of the configured rules. */
module ExitSelector {
  import opened Wrappers
  import opened Text
  import opened Numbers
  import opened Json
  import opened JsValues
  import opened BuilderTypes
  import opened BuilderStore

  /** `{ ...exit, [key]: part }` on an exit-condition object. */
  function WithPart(exit: Json, key: string, part: Json): (r: Json)
    requires exit.JObj?
    ensures r.JObj? && Field(r, key) == Some(part)
    ensures forall g :: g != key ==> Field(r, g) == Field(exit, g)
  {
    JObj(exit.fields[key := part])
  }

  /** The stop-loss object a preset installs: type and value, a 5% trailing activation
      for trailing kinds and a 14-bar ATR period for ATR stops; nothing else. */
  function StopFromPreset(p: Preset): (r: Json)
    ensures r.JObj?
    ensures Field(r, "type") == Some(JStr(p.kind)) && Field(r, "value") == Some(JInt(p.value))
    ensures Field(r, "trailingActivation").Some? <==> Contains(p.kind, "trailing")
    ensures Field(r, "trailingActivation").Some? ==> Field(r, "trailingActivation") == Some(JInt(5))
    ensures Field(r, "atrPeriod").Some? <==> p.kind == "atr_based"
    ensures Field(r, "atrPeriod").Some? ==> Field(r, "atrPeriod") == Some(JInt(14))
    ensures r.fields.Keys <= {"type", "value", "trailingActivation", "atrPeriod"}
  {
    var base := map["type" := JStr(p.kind), "value" := JInt(p.value)];
    var withTrailing := Put(base, "trailingActivation", if Contains(p.kind, "trailing") then Some(JInt(5)) else None);
    JObj(Put(withTrailing, "atrPeriod", if p.kind == "atr_based" then Some(JInt(14)) else None))
  }

  /** The take-profit object a preset installs: the ratio repeats the value for a
      risk:reward preset, and the indicator threshold is the value as text when the
      preset watches an indicator. */
  function TakeFromPreset(p: Preset): (r: Json)
    ensures r.JObj?
    ensures Field(r, "type") == Some(JStr(p.kind)) && Field(r, "value") == Some(JInt(p.value))
    ensures Field(r, "riskRewardRatio").Some? <==> p.kind == "risk_reward_ratio"
    ensures Field(r, "riskRewardRatio").Some? ==> Field(r, "riskRewardRatio") == Some(JInt(p.value))
    ensures Field(r, "indicatorValue").Some? <==> p.indicator.Some? && p.indicator.value != ""
    ensures Field(r, "indicatorValue").Some? ==> Field(r, "indicatorValue") == Some(JStr(IntToString(p.value)))
  {
    JObj(Put(TakeBase(p), "indicatorValue",
             if p.indicator.Some? && p.indicator.value != "" then Some(JStr(IntToString(p.value))) else None))
  }

  /** The take-profit fields a preset installs before the indicator threshold. */
  function TakeBase(p: Preset): (r: map<string, Json>)
    ensures "type" in r && r["type"] == JStr(p.kind) && "value" in r && r["value"] == JInt(p.value)
    ensures "riskRewardRatio" in r <==> p.kind == "risk_reward_ratio"
    ensures "riskRewardRatio" in r ==> r["riskRewardRatio"] == JInt(p.value)
    ensures "indicatorValue" !in r
  {
    var base := map["type" := JStr(p.kind), "value" := JInt(p.value)];
    var withRatio := Put(base, "riskRewardRatio", if p.kind == "risk_reward_ratio" then Some(JInt(p.value)) else None);
    Put(withRatio, "indicator", if p.indicator.Some? then Some(JStr(p.indicator.value)) else None)
  }

  /** `handleStopLossPresetSelect`: the stop loss is replaced, the rest kept. */
  function ApplyStopPreset(exit: Json, p: Preset): (r: Json)
    requires exit.JObj?
    ensures Field(r, "stopLoss") == Some(StopFromPreset(p))
    ensures forall g :: g != "stopLoss" ==> Field(r, g) == Field(exit, g)
  {
    WithPart(exit, "stopLoss", StopFromPreset(p))
  }

  /** `handleTakeProfitPresetSelect`: the take profit is replaced, the rest kept. */
  function ApplyTakePreset(exit: Json, p: Preset): (r: Json)
    requires exit.JObj?
    ensures Field(r, "takeProfit") == Some(TakeFromPreset(p))
    ensures forall g :: g != "takeProfit" ==> Field(r, g) == Field(exit, g)
  {
    WithPart(exit, "takeProfit", TakeFromPreset(p))
  }

  /** A part is either absent or falsy, or an object (the editor's types allow nothing
      else). */
  predicate PartShape(exit: Json, key: string) {
    Field(exit, key).None? || !JsTruthy(Field(exit, key).value) || Field(exit, key).value.JObj?
  }

  /** `handleStopLossChange(field, value)` / `handleTakeProfitChange(field, value)`: one
      field of the part is replaced, starting from `default` when the part is missing. */
  function ChangePart(exit: Json, key: string, default: Json, field: string, v: Option<Json>): (r: Json)
    requires exit.JObj? && default.JObj? && PartShape(exit, key)
    ensures forall g :: g != key ==> Field(r, g) == Field(exit, g)
    ensures Field(r, key).Some? && Field(Field(r, key).value, field) == v
    ensures forall g :: g != field ==>
              Field(Field(r, key).value, g) == Field(Or(Field(exit, key), default), g)
  {
    var current := Or(Field(exit, key), default);
    WithPart(exit, key, JObj(Put(current.fields, field, v)))
  }

  function ChangeStopLoss(exit: Json, field: string, v: Option<Json>): Json
    requires exit.JObj? && PartShape(exit, "stopLoss")
  {
    ChangePart(exit, "stopLoss", DefaultStopLoss, field, v)
  }

  function ChangeTakeProfit(exit: Json, field: string, v: Option<Json>): Json
    requires exit.JObj? && PartShape(exit, "takeProfit")
  {
    ChangePart(exit, "takeProfit", DefaultTakeProfit, field, v)
  }

  /** Editing a stop-loss field leaves the take profit alone, and the other way round;
      a missing stop loss starts from a 5% fixed stop. */
  lemma ChangesAreIndependent(exit: Json, field: string, v: Option<Json>)
    requires exit.JObj? && PartShape(exit, "stopLoss") && PartShape(exit, "takeProfit")
    ensures Field(ChangeStopLoss(exit, field, v), "takeProfit") == Field(exit, "takeProfit")
    ensures Field(ChangeTakeProfit(exit, field, v), "stopLoss") == Field(exit, "stopLoss")
    ensures !Has(exit, "stopLoss") && field != "type" ==>
              Field(Field(ChangeStopLoss(exit, field, v), "stopLoss").value, "type") == Some(JStr("fixed_percentage"))
  {
  }

  // ---- Filling in missing parts ----

  /** `ensureDefaultConfig` as written: each missing part is reported as a change of the
      ORIGINAL object, so the second report overrides the first. Returns the reports in
      order; the last one is the state the builder ends with. */
  function EnsureDefaultsAsWritten(exit: Json): (r: seq<Json>)
    requires exit.JObj?
  {
    (if !Has(exit, "stopLoss") then [WithPart(exit, "stopLoss", DefaultStopLoss)] else [])
    + (if !Has(exit, "takeProfit") then [WithPart(exit, "takeProfit", DefaultTakeProfit)] else [])
  }

  /** The exit rules after the reports: the last one, or the rules unchanged. */
  function AfterReports(exit: Json, reports: seq<Json>): Json {
    if |reports| == 0 then exit else reports[|reports| - 1]
  }

  /** `ensureDefaultConfig` as intended: both missing parts filled in one report. */
  function EnsureDefaults(exit: Json): (r: Json)
    requires exit.JObj?
    ensures Has(r, "stopLoss") && Has(r, "takeProfit")
    ensures Has(exit, "stopLoss") ==> Field(r, "stopLoss") == Field(exit, "stopLoss")
    ensures Has(exit, "takeProfit") ==> Field(r, "takeProfit") == Field(exit, "takeProfit")
    ensures forall g :: g != "stopLoss" && g != "takeProfit" ==> Field(r, g) == Field(exit, g)
  {
    var withStop := if !Has(exit, "stopLoss") then WithPart(exit, "stopLoss", DefaultStopLoss) else exit;
    if !Has(withStop, "takeProfit") then WithPart(withStop, "takeProfit", DefaultTakeProfit) else withStop
  }

  /** With one part missing the code as written and the intended fill agree; with both
      missing, the stop-loss default written first is lost. */
  lemma EnsureDefaultsDiscrepancy(exit: Json)
    requires exit.JObj?
    ensures Has(exit, "stopLoss") || Has(exit, "takeProfit") ==>
              AfterReports(exit, EnsureDefaultsAsWritten(exit)) == EnsureDefaults(exit)
    ensures !Has(exit, "stopLoss") && !Has(exit, "takeProfit") ==>
              !Has(AfterReports(exit, EnsureDefaultsAsWritten(exit)), "stopLoss")
  {
    if Has(exit, "stopLoss") && Has(exit, "takeProfit") {
      assert EnsureDefaultsAsWritten(exit) == [];
    }
  }

  /** A loaded strategy whose exit condition is `{}`: the editor ends with a take
      profit only. */
  lemma EmptyExitExample()
    ensures var reports := EnsureDefaultsAsWritten(JObj(map[]));
      && |reports| == 2
      && AfterReports(JObj(map[]), reports) == JObj(map["takeProfit" := DefaultTakeProfit])
      && EnsureDefaults(JObj(map[])) == JObj(map["stopLoss" := DefaultStopLoss, "takeProfit" := DefaultTakeProfit])
  {
  }

  // ---- Description ----

  /** A description is literal text and interpolated property values (None stands for
      `undefined`); turning numbers into text is left to the renderer. */
  datatype Piece = Lit(text: string) | Val(value: Option<Json>)

  /** Some literal of the pieces is non-empty, so the rendered text is non-empty. */
  predicate Visible(ps: seq<Piece>) {
    exists k :: 0 <= k < |ps| && ps[k].Lit? && ps[k].text != ""
  }

  /** The field values the pieces show, in order. */
  function Shown(ps: seq<Piece>): seq<Option<Json>> {
    if |ps| == 0 then [] else (if ps[0].Val? then [ps[0].value] else []) + Shown(ps[1..])
  }

  function StopText(sl: Json): (r: seq<Piece>)
    ensures |r| > 0 ==> Visible(r)
    ensures Field(sl, "type") == Some(JStr("trailing_dollar")) ==> r == []
  {
    var v := Val(Field(sl, "value"));
    var t := Field(sl, "type");
    var r :=
      if t == Some(JStr("fixed_percentage")) then [v, Lit("% Stop Loss")]
      else if t == Some(JStr("fixed_dollar")) then [Lit("$"), v, Lit(" Stop Loss")]
      else if t == Some(JStr("trailing_percentage")) then
        [v, Lit("% Trailing Stop (activates at "), Val(Field(sl, "trailingActivation")), Lit("% profit)")]
      else if t == Some(JStr("atr_based")) then [v, Lit("x ATR Stop ("), Val(Field(sl, "atrPeriod")), Lit(" day period)")]
      else if t == Some(JStr("support_resistance")) then [Lit("Stop at $"), Val(Field(sl, "supportResistanceLevel"))]
      else [];
    assert |r| > 0 ==> (r[0].Lit? && r[0].text != "") || (r[1].Lit? && r[1].text != "");
    r
  }

  function TakeText(tp: Json): (r: seq<Piece>)
    ensures |r| > 0 ==> Visible(r)
  {
    var v := Val(Field(tp, "value"));
    var t := Field(tp, "type");
    var r :=
      if t == Some(JStr("fixed_percentage")) then [v, Lit("% Profit Target")]
      else if t == Some(JStr("fixed_dollar")) then [Lit("$"), v, Lit(" Profit Target")]
      else if t == Some(JStr("risk_reward_ratio")) then [Lit("1:"), Val(Field(tp, "riskRewardRatio")), Lit(" Risk:Reward")]
      else if t == Some(JStr("indicator_based")) then
        [Val(Field(tp, "indicator")), Lit(" > "), Val(Field(tp, "indicatorValue")), Lit(" Exit")]
      else [];
    assert |r| > 0 ==> (r[0].Lit? && r[0].text != "") || (r[1].Lit? && r[1].text != "");
    r
  }

  const NoExitText := "No exit conditions configured"

  /** `getExitDescription`. */
  function Description(exit: Json): (r: seq<Piece>)
    ensures Visible(r)
  {
    var stop := if Has(exit, "stopLoss") then StopText(Field(exit, "stopLoss").value) else [];
    var text :=
      if Has(exit, "takeProfit") then
        stop + (if |stop| > 0 then [Lit(" + ")] else []) + TakeText(Field(exit, "takeProfit").value)
      else stop;
    if |text| == 0 then
      var none := [Lit(NoExitText)];
      assert none[0].text != "";
      none
    else
      assert Visible(text) by {
        if |stop| > 0 {
          var k :| 0 <= k < |stop| && stop[k].Lit? && stop[k].text != "";
          assert text[k] == stop[k];
        } else {
          var tp := TakeText(Field(exit, "takeProfit").value);
          assert text == tp;
        }
      }
      text
  }

  /** A non-empty stop text is followed by " + " and the target text whenever a truthy
      `takeProfit` exists, even when that target describes nothing (a target of unknown
      type gives "... Stop Loss + "); a stop text alone stands alone; with neither text,
      the placeholder is shown. */
  lemma DescriptionShape(exit: Json)
    ensures var stop := if Has(exit, "stopLoss") then StopText(Field(exit, "stopLoss").value) else [];
      var take := if Has(exit, "takeProfit") then TakeText(Field(exit, "takeProfit").value) else [];
      && (|stop| > 0 && Has(exit, "takeProfit") ==> Description(exit) == stop + [Lit(" + ")] + take)
      && (|stop| > 0 && !Has(exit, "takeProfit") ==> Description(exit) == stop)
      && (|stop| == 0 && |take| == 0 ==> Description(exit) == [Lit(NoExitText)])
      && (|stop| == 0 && |take| > 0 ==> Description(exit) == take)
  {
  }

  /** A trailing-dollar stop is never described: alone it reads as no exit rules. */
  lemma TrailingDollarUndescribed(sl: Json)
    requires Field(sl, "type") == Some(JStr("trailing_dollar"))
    ensures Description(JObj(map["stopLoss" := sl])) == [Lit(NoExitText)]
  {
    assert Field(JObj(map["stopLoss" := sl]), "takeProfit").None?;
  }
}
