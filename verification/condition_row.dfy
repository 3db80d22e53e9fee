/** One row of the condition editor: which inputs it shows, how a typed parameter is
    read, and under which key a comparison parameter is stored. */
module ConditionRow {
  import opened Wrappers
  import opened Text
  import opened Numbers
  import opened Json
  import opened JsValues
  import opened Vocabulary
  import opened BuilderTypes
  import opened BuilderStore

  /** `isCrossOperator`, on the operator as the row holds it: a string. */
  predicate IsCrossOperator(op: string) {
    op == "crosses_above" || op == "crosses_below"
  }

  /** The row's notion of a crossing operator is the backend's. */
  lemma CrossOperatorAgrees(op: string)
    ensures IsCrossOperator(op) <==> ParseOperator(op).Some? && ParseOperator(op).value.IsCross()
  {
    if ParseOperator(op).Some? {
      OperatorNameParses(ParseOperator(op).value);
    }
  }

  /** A typed parameter: an empty box clears it (None, `undefined`); otherwise the
      `parseInt` of the text, unless that is NaN or 0, which fall back to the default. */
  function ParamInput(input: string, default: int): (r: Option<int>)
    ensures r.None? <==> input == ""
    ensures r.Some? && default != 0 ==> r.value != 0
    ensures r.Some? && r.value != default ==> JsParseInt(input) == Some(r.value)
    ensures input != "" && JsParseInt(input).Some? && JsParseInt(input).value != 0 ==> r == JsParseInt(input)
    ensures input != "" && (JsParseInt(input).None? || JsParseInt(input) == Some(0)) ==> r == Some(default)
  {
    if input == "" then None
    else match JsParseInt(input)
      case Some(v) => if v != 0 then Some(v) else Some(default)
      case None => Some(default)
  }

  /** A non-zero number typed in reads back as itself; zero reads as the default. */
  lemma ParamInputRoundTrip(i: int, default: int)
    ensures i != 0 ==> ParamInput(IntToString(i), default) == Some(i)
    ensures ParamInput(IntToString(0), default) == Some(default)
  {
    JsParseIntRoundTrip(i);
    JsParseIntRoundTrip(0);
    assert IntToString(0) != "";
    assert i < 0 ==> IntToString(i)[0] == '-';
    assert i >= 0 ==> |IntToString(i)| >= 1;
  }

  /** The value a parameter box shows: `condition[key] ?? default`. */
  function Shown(c: Json, key: string, default: int): (r: Json)
    ensures Field(c, key).None? || Field(c, key) == Some(JNull) ==> r == JInt(default)
    ensures Field(c, key).Some? && Field(c, key) != Some(JNull) ==> r == Field(c, key).value
  {
    match Field(c, key)
    case Some(JNull) => JInt(default)
    case Some(v) => v
    case None => JInt(default)
  }

  /** Typing into a parameter box of the row with id `id`. */
  function EditParam(b: Builder, id: string, key: string, input: string, default: int): (r: Builder)
    ensures |r.conditions| == |b.conditions|
  {
    UpdateCondition(b, id, key, match ParamInput(input, default) case Some(v) => Some(JInt(v)) case None => None)
  }

  /** After an edit the box of every row with that id shows what was typed (or the
      default, when the box was emptied or the text was no non-zero number); with a
      positive default, no row ever stores 0. */
  lemma EditParamShown(b: Builder, id: string, key: string, input: string, default: int, k: nat)
    requires k < |b.conditions| && HasId(b.conditions[k], id)
    ensures input == "" ==> Shown(EditParam(b, id, key, input, default).conditions[k], key, default) == JInt(default)
    ensures input != "" ==> Shown(EditParam(b, id, key, input, default).conditions[k], key, default) == JInt(ParamInput(input, default).value)
    ensures default > 0 ==> Field(EditParam(b, id, key, input, default).conditions[k], key) != Some(JInt(0))
  {
  }

  /** The key a comparison parameter is stored under: "compare", the first character
      upper-cased, then the rest (`charAt(0)` of an empty key is empty). */
  function CompareKey(key: string): (r: string)
    ensures |r| == 7 + |key| && r[..7] == "compare"
    ensures |key| > 0 ==> r[7] == UpperChar(key[0]) && r[8..] == key[1..]
  {
    "compare" + (if |key| == 0 then "" else [UpperChar(key[0])] + key[1..])
  }

  /** Two parameter names starting with a lower-case letter get different comparison
      keys, so no two comparison parameters of one indicator share a field. */
  lemma CompareKeyInjective(a: string, b: string)
    requires |a| > 0 && IsLowerAscii(a[0]) && |b| > 0 && IsLowerAscii(b[0])
    requires CompareKey(a) == CompareKey(b)
    ensures a == b
  {
    assert |a| == |b|;
    assert a[1..] == CompareKey(a)[8..] == CompareKey(b)[8..] == b[1..];
    assert UpperChar(a[0]) == CompareKey(a)[7] == CompareKey(b)[7] == UpperChar(b[0]);
    assert a == [a[0]] + a[1..] && b == [b[0]] + b[1..];
  }

  /** Only the first character changes case, so the MACD comparison periods land under
      `compareFast_period`, not under the declared `compareFastPeriod`. */
  lemma CompareKeyOfFastPeriod()
    ensures CompareKey("fast_period") == "compareFast_period"
    ensures CompareKey("fast_period") != "compareFastPeriod"
  {
    assert "fast_period" == ['f'] + "ast_period";
    CompareKeyHead('f', "ast_period");
    assert UpperChar('f') == 'F';
    assert "compare" + ['F'] + "ast_period" == "compareFast_period";
    assert |"compareFastPeriod"| == 17;
  }

  lemma CompareKeyHead(c: char, rest: string)
    ensures CompareKey([c] + rest) == "compare" + [UpperChar(c)] + rest
  {
    assert ([c] + rest)[1..] == rest;
  }

  /** The parameter inputs of a row: the indicator's table entry, when it has one with
      at least one parameter. */
  predicate ShowParams(indicator: string) {
    ParamsNamed(indicator).Some? && |ParamsNamed(indicator).value| > 0
  }

  /** The parameter inputs show for exactly the known indicators other than volume and price. */
  lemma ShowParamsExactly(name: string)
    ensures ShowParams(name) <==> exists i :: IndicatorName(i) == name && i != Volume && i != Close
  {
    if ShowParams(name) {
      var i := ParseIndicator(name).value;
      ParamsShape(i);
      IndicatorNameParses(i);
    }
    if i :| IndicatorName(i) == name && i != Volume && i != Close {
      IndicatorNameParses(i);
      ParamsShape(i);
    }
  }

  /** The row's operator is a crossing one (`isCrossOperator(condition.operator)`). */
  predicate CrossRow(c: Json) {
    Field(c, "operator").Some? && Field(c, "operator").value.JStr? && IsCrossOperator(Field(c, "operator").value.s)
  }

  /** The comparison parameter inputs: the whole comparison block shows only on a crossing
      row; inside it, the inputs show when a comparison indicator is chosen and is not the
      price, and an indicator outside the table contributes no inputs. */
  function CompareParams(c: Json): (r: seq<Param>)
    ensures !CrossRow(c) ==> r == []
    ensures !Has(c, "compareIndicator") || Field(c, "compareIndicator") == Some(JStr("Close")) ==> r == []
    ensures r != [] ==> CrossRow(c) && Field(c, "compareIndicator").value.JStr?
  {
    var ci := Field(c, "compareIndicator");
    if !CrossRow(c) then []
    else if !Has(c, "compareIndicator") || ci == Some(JStr("Close")) || !ci.value.JStr? then []
    else match ParamsNamed(ci.value.s)
      case Some(ps) => ps
      case None => []
  }

  /** The row offers comparison inputs exactly when it is a crossing row whose chosen
      comparison indicator has parameters. */
  lemma CompareParamsShown(c: Json, name: string)
    requires Field(c, "compareIndicator") == Some(JStr(name))
    ensures CompareParams(c) != [] <==> CrossRow(c) && ShowParams(name)
  {
  }

  /** The fields the value box(es) of a row edit, in screen order: a crossing operator
      edits the optional `compareValue`; a range operator edits `value` as its minimum
      and `compareValue` as its maximum; any other operator edits `value`. */
  function ValueFields(op: string): (r: seq<string>)
    ensures IsCrossOperator(op) ==> r == ["compareValue"]
    ensures !IsCrossOperator(op) && (op == "between" || op == "outside") ==> r == ["value", "compareValue"]
    ensures !IsCrossOperator(op) && op != "between" && op != "outside" ==> r == ["value"]
  {
    if IsCrossOperator(op) then ["compareValue"]
    else if op == "between" || op == "outside" then ["value", "compareValue"]
    else ["value"]
  }

  /** The range boxes fill the bounds the backend reads: for a range operator the first
      box is the field compared as the lower bound and the second the upper bound. */
  lemma RangeBoxesAreBounds(op: string)
    requires ParseOperator(op).Some? && ParseOperator(op).value.IsRange()
    ensures ValueFields(op) == ["value", "compareValue"]
  {
    OperatorNameParses(ParseOperator(op).value);
  }
}
