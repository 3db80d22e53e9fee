/** The position-sizing editor: applying a preset, editing one field, which preset is
    highlighted, and the one-line description of the sizing rule. */
module EntrySelector {
  import opened Wrappers
  import opened Json
  import opened JsValues
  import opened Vocabulary
  import opened BuilderTypes
  import opened StrategyValidation
  import opened ExitSelector

  /** `handlePresetSelect`: the preset's kind and value, with the current cap, risk and
      volatility period kept unless falsy (then 10, 1 and 20). The custom panel closes,
      which the second component reports. */
  function ApplyPreset(entry: Json, p: Preset): (r: (Json, bool))
    ensures r.1 == false
    ensures r.0.JObj? && r.0.fields.Keys == {"positionSizing", "sizingValue", "maxPositionSize", "riskPerTrade", "volatilityPeriod"}
    ensures Field(r.0, "positionSizing") == Some(JStr(p.kind)) && Field(r.0, "sizingValue") == Some(JInt(p.value))
    ensures Has(entry, "maxPositionSize") ==> Field(r.0, "maxPositionSize") == Field(entry, "maxPositionSize")
    ensures !Has(entry, "maxPositionSize") ==> Field(r.0, "maxPositionSize") == Some(JInt(10))
    ensures Has(entry, "riskPerTrade") ==> Field(r.0, "riskPerTrade") == Field(entry, "riskPerTrade")
    ensures !Has(entry, "riskPerTrade") ==> Field(r.0, "riskPerTrade") == Some(JInt(1))
    ensures Has(entry, "volatilityPeriod") ==> Field(r.0, "volatilityPeriod") == Field(entry, "volatilityPeriod")
    ensures !Has(entry, "volatilityPeriod") ==> Field(r.0, "volatilityPeriod") == Some(JInt(20))
  {
    (JObj(map[
      "positionSizing" := JStr(p.kind),
      "sizingValue" := JInt(p.value),
      "maxPositionSize" := Or(Field(entry, "maxPositionSize"), JInt(10)),
      "riskPerTrade" := Or(Field(entry, "riskPerTrade"), JInt(1)),
      "volatilityPeriod" := Or(Field(entry, "volatilityPeriod"), JInt(20))]), false)
  }

  /** `handleCustomChange(field, value)`: exactly that field is replaced. */
  function ChangeField(entry: Json, field: string, v: Option<Json>): (r: Json)
    requires entry.JObj?
    ensures r.JObj? && Field(r, field) == v
    ensures forall g :: g != field ==> Field(r, g) == Field(entry, g)
  {
    JObj(Put(entry.fields, field, v))
  }

  /** A preset button is highlighted when its kind is the current sizing kind. */
  predicate Selected(entry: Json, p: Preset) {
    Field(entry, "positionSizing") == Some(JStr(p.kind))
  }

  /** Applying a preset twice is applying it once; afterwards exactly the presets of its
      kind are highlighted. */
  lemma ApplyPresetIdempotent(entry: Json, p: Preset)
    ensures ApplyPreset(ApplyPreset(entry, p).0, p) == ApplyPreset(entry, p)
    ensures forall q :: Selected(ApplyPreset(entry, p).0, q) <==> q.kind == p.kind
  {
  }

  /** Every sizing preset yields an entry rule the backend validator accepts. */
  lemma PresetEntriesAreValid(entry: Json)
    ensures forall p :: p in SizingPresets ==> EntryOk(ApplyPreset(entry, p).0)
  {
    PresetsWellTyped();
  }

  /** `getPositionSizingDescription`. */
  function Description(entry: Json): (r: seq<Piece>)
    ensures Visible(r)
    ensures !(Field(entry, "positionSizing").Some? && IsOneOf(Field(entry, "positionSizing").value, SizingNames))
            ==> r == [Lit("Not configured")]
  {
    var kind := Field(entry, "positionSizing");
    var r :=
      if kind == Some(JStr("fixed_percentage")) then [Val(Field(entry, "sizingValue")), Lit("% of portfolio")]
      else if kind == Some(JStr("fixed_dollar")) then [Lit("$"), Val(Field(entry, "sizingValue")), Lit(" fixed amount")]
      else if kind == Some(JStr("risk_based")) then
        [Val(Field(entry, "riskPerTrade")), Lit("% risk per trade (max "), Val(Field(entry, "maxPositionSize")), Lit("% position)")]
      else if kind == Some(JStr("kelly_criterion")) then
        [Lit("Kelly Criterion (max "), Val(Field(entry, "maxPositionSize")), Lit("% position)")]
      else if kind == Some(JStr("volatility_based")) then
        [Lit("Volatility-adjusted ("), Val(Field(entry, "volatilityPeriod")), Lit(" day period, max "),
         Val(Field(entry, "maxPositionSize")), Lit("% position)")]
      else [Lit("Not configured")];
    assert (r[0].Lit? && r[0].text != "") || (r[1].Lit? && r[1].text != "");
    r
  }

  /** What the description shows for each sizing kind: the amount for a percentage or a
      dollar amount, the risk and the cap for risk-based sizing, the cap for Kelly, the
      period and the cap for volatility sizing, and no field otherwise. */
  lemma DescriptionShowsItsFields(entry: Json)
    ensures var kind := Field(entry, "positionSizing");
      var shown := Shown(Description(entry));
      && (kind == Some(JStr("fixed_percentage")) ==> shown == [Field(entry, "sizingValue")])
      && (kind == Some(JStr("fixed_dollar")) ==> shown == [Field(entry, "sizingValue")])
      && (kind == Some(JStr("risk_based")) ==> shown == [Field(entry, "riskPerTrade"), Field(entry, "maxPositionSize")])
      && (kind == Some(JStr("kelly_criterion")) ==> shown == [Field(entry, "maxPositionSize")])
      && (kind == Some(JStr("volatility_based")) ==>
            shown == [Field(entry, "volatilityPeriod"), Field(entry, "maxPositionSize")])
      && (!(kind.Some? && IsOneOf(kind.value, SizingNames)) ==> shown == [])
  {
    var kind := Field(entry, "positionSizing");
    if kind == Some(JStr("fixed_percentage")) || kind == Some(JStr("fixed_dollar")) {
      AmountShown(entry);
    } else if kind == Some(JStr("risk_based")) {
      RiskShown(entry);
    } else if kind == Some(JStr("kelly_criterion")) {
      KellyShown(entry);
    } else if kind == Some(JStr("volatility_based")) {
      VolatilityShown(entry);
    } else {
      assert Description(entry) == [Lit("Not configured")];
    }
  }

  lemma AmountShown(entry: Json)
    requires Field(entry, "positionSizing") in {Some(JStr("fixed_percentage")), Some(JStr("fixed_dollar"))}
    ensures Shown(Description(entry)) == [Field(entry, "sizingValue")]
  {
    var s := Field(entry, "sizingValue");
    ShownTwo(Val(s), Lit("% of portfolio"));
    ShownTwo(Val(s), Lit(" fixed amount"));
    if Field(entry, "positionSizing") == Some(JStr("fixed_dollar")) {
      assert Description(entry) == [Lit("$")] + [Val(s), Lit(" fixed amount")];
    }
  }

  lemma RiskShown(entry: Json)
    requires Field(entry, "positionSizing") == Some(JStr("risk_based"))
    ensures Shown(Description(entry)) == [Field(entry, "riskPerTrade"), Field(entry, "maxPositionSize")]
  {
    var head := [Val(Field(entry, "riskPerTrade")), Lit("% risk per trade (max ")];
    var tail := [Val(Field(entry, "maxPositionSize")), Lit("% position)")];
    assert Description(entry) == head + tail;
    ShownTwo(head[0], head[1]);
    ShownTwo(tail[0], tail[1]);
    ShownAppend(head, tail);
  }

  lemma KellyShown(entry: Json)
    requires Field(entry, "positionSizing") == Some(JStr("kelly_criterion"))
    ensures Shown(Description(entry)) == [Field(entry, "maxPositionSize")]
  {
    var tail := [Val(Field(entry, "maxPositionSize")), Lit("% position)")];
    assert Description(entry) == [Lit("Kelly Criterion (max ")] + tail;
    ShownTwo(tail[0], tail[1]);
  }

  lemma VolatilityShown(entry: Json)
    requires Field(entry, "positionSizing") == Some(JStr("volatility_based"))
    ensures Shown(Description(entry)) == [Field(entry, "volatilityPeriod"), Field(entry, "maxPositionSize")]
  {
    var head := [Lit("Volatility-adjusted ("), Val(Field(entry, "volatilityPeriod")), Lit(" day period, max ")];
    var tail := [Val(Field(entry, "maxPositionSize")), Lit("% position)")];
    assert Description(entry) == head + tail;
    assert head == [Lit("Volatility-adjusted (")] + [head[1], head[2]];
    ShownTwo(head[1], head[2]);
    ShownTwo(tail[0], tail[1]);
    ShownAppend(head, tail);
  }

  /** A value followed by a literal shows just the value. */
  lemma ShownTwo(a: Piece, b: Piece)
    requires a.Val? && b.Lit?
    ensures Shown([a, b]) == [a.value]
    ensures forall l :: Shown([Lit(l)] + [a, b]) == [a.value]
  {
    assert [b][0] == b && [b][1..] == [];
    assert Shown([b]) == [] + Shown([]);
    assert [a, b][0] == a && [a, b][1..] == [b];
    assert Shown([a, b]) == [a.value] + Shown([b]);
    forall l
      ensures Shown([Lit(l)] + [a, b]) == [a.value]
    {
      var q := [Lit(l)] + [a, b];
      assert q[0] == Lit(l) && q[1..] == [a, b];
      assert Shown(q) == [] + Shown([a, b]);
    }
  }

  /** The values shown by two runs of pieces, one after the other. */
  lemma {:induction false} ShownAppend(xs: seq<Piece>, ys: seq<Piece>)
    ensures Shown(xs + ys) == Shown(xs) + Shown(ys)
  {
    if |xs| > 0 {
      assert (xs + ys)[1..] == xs[1..] + ys;
      ShownAppend(xs[1..], ys);
    } else {
      assert xs + ys == ys;
    }
  }
}
