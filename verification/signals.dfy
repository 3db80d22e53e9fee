/** Entry signals (`generate_signals`): each condition becomes a per-bar truth series,
    conditions that cannot be evaluated are skipped, the rest are combined with AND or
    OR, and every bar where the combination holds signals the strategy's side. */
module Signals {
  import opened Wrappers
  import opened Text
  import opened Json
  import opened Vocabulary
  import opened MarketData
  import opened StrategyConfig

  datatype Signal = Hold | Go(side: Side)

  /** The column for an upper-cased indicator name; `Close` for any other name. */
  function ColumnForUpperName(s: string): string {
    if s == "RSI" then "rsi"
    else if s == "MACD" then "macd_line"
    else if s == "SMA" then "sma_20"
    else if s == "EMA" then "ema_20"
    else if s == "BOLLINGER_BANDS" then "bb_middle"
    else if s == "STOCHASTIC" then "stoch_k"
    else if s == "WILLIAMS_R" then "williams_r"
    else if s == "ATR" then "atr"
    else if s == "VOLUME" then "Volume"
    else "Close"
  }

  /** Upper-casing a string character by character to a known result. */
  lemma UpperIs(s: string, u: string)
    requires |s| == |u| && forall k :: 0 <= k < |s| ==> UpperChar(s[k]) == u[k]
    ensures Upper(s) == u
  {
  }

  /** A known indicator name, upper-cased. */
  function UpperIndicatorName(i: Indicator): string {
    match i
    case RSI => "RSI"
    case MACD => "MACD"
    case Close => "CLOSE"
    case SMA => "SMA"
    case EMA => "EMA"
    case BollingerBands => "BOLLINGER_BANDS"
    case Stochastic => "STOCHASTIC"
    case WilliamsR => "WILLIAMS_R"
    case ATR => "ATR"
    case Volume => "VOLUME"
  }

  lemma UpperOfIndicatorName(i: Indicator)
    ensures Upper(IndicatorName(i)) == UpperIndicatorName(i)
  {
    match i
    case RSI => UpperIs("RSI", "RSI");
    case MACD => UpperIs("MACD", "MACD");
    case Close => UpperIs("Close", "CLOSE");
    case SMA => UpperIs("SMA", "SMA");
    case EMA => UpperIs("EMA", "EMA");
    case BollingerBands => UpperIs("Bollinger_Bands", "BOLLINGER_BANDS");
    case Stochastic => UpperIs("Stochastic", "STOCHASTIC");
    case WilliamsR => UpperIs("Williams_R", "WILLIAMS_R");
    case ATR => UpperIs("ATR", "ATR");
    case Volume => UpperIs("Volume", "VOLUME");
  }

  /** Upper-casing a known indicator name and looking it up finds that indicator's column. */
  lemma UpperNameFindsColumn(i: Indicator)
    ensures ColumnForUpperName(Upper(IndicatorName(i))) == IndicatorColumn(i)
  {
    UpperOfIndicatorName(i);
  }

  /** The column a condition reads: its indicator's name, upper-cased, looked up. */
  function MainColumn(c: SignalCondition): (col: string)
    ensures col == IndicatorColumn(c.indicator)
  {
    UpperNameFindsColumn(c.indicator);
    ColumnForUpperName(Upper(IndicatorName(c.indicator)))
  }

  /** The column a cross compares against; None when the compare indicator is no string
      (upper-casing it raises and the condition is skipped). */
  function CompareColumn(v: Json): Option<string> {
    if v.JStr? then Some(ColumnForUpperName(Upper(v.s))) else None
  }

  /** `main` crosses `other` at bar `t`: both defined at `t - 1` and `t`, strictly on one
      side before and strictly on the other side now. */
  predicate CrossAt(f: Frame, main: string, other: string, t: nat, upward: bool)
    requires t < |f.bars|
  {
    t > 0
    && Cell(f, t - 1, main).Some? && Cell(f, t - 1, other).Some?
    && Cell(f, t, main).Some? && Cell(f, t, other).Some?
    && (if upward
        then Cell(f, t - 1, main).value < Cell(f, t - 1, other).value && Cell(f, t, main).value > Cell(f, t, other).value
        else Cell(f, t - 1, main).value > Cell(f, t - 1, other).value && Cell(f, t, main).value < Cell(f, t, other).value)
  }

  /** A cell against a threshold; a NaN cell compares false, except under `not_equals`. */
  predicate CompareAt(op: Operator, cell: Option<real>, x: real)
    requires !op.IsCross() && !op.IsRange()
  {
    match cell
    case None => op == NotEquals
    case Some(v) =>
      match op
      case LessThan => v < x
      case GreaterThan => v > x
      case Equals => v == x
      case NotEquals => v != x
  }

  /** `between` is inclusive at both ends, `outside` strict; a NaN cell is in neither. */
  predicate RangeAt(op: Operator, cell: Option<real>, lo: real, hi: real)
    requires op.IsRange()
  {
    cell.Some? &&
    if op == Between then lo <= cell.value && cell.value <= hi
    else cell.value < lo || cell.value > hi
  }

  /** One condition's truth per bar; None when it is skipped (a column is missing, the
      compare indicator is unusable, or a threshold is not a number). */
  function Evaluate(f: Frame, c: SignalCondition): (r: Option<seq<bool>>)
    ensures r.Some? ==> |r.value| == |f.bars| && HasColumn(f, IndicatorColumn(c.indicator))
  {
    var main := MainColumn(c);
    if c.op.IsCross() then
      match CompareColumn(c.compareIndicator)
      case None => None
      case Some(other) =>
        if !HasColumn(f, main) || !HasColumn(f, other) then None
        else Some(seq(|f.bars|, t requires 0 <= t < |f.bars| => CrossAt(f, main, other, t, c.op == CrossesAbove)))
    else if c.op.IsRange() then
      if !HasColumn(f, main) then None
      else
        match (ToFloat(c.value), ToFloat(c.compareValue))
        case (Some(lo), Some(hi)) => Some(seq(|f.bars|, t requires 0 <= t < |f.bars| => RangeAt(c.op, Cell(f, t, main), lo, hi)))
        case _ => None
    else
      if !HasColumn(f, main) then None
      else
        match ToFloat(c.value)
        case Some(x) => Some(seq(|f.bars|, t requires 0 <= t < |f.bars| => CompareAt(c.op, Cell(f, t, main), x)))
        case None => None
  }

  /** The truth series of the conditions that were not skipped, in order. */
  function Evaluated(f: Frame, cs: seq<SignalCondition>): (r: seq<seq<bool>>)
    ensures |r| <= |cs|
    ensures forall k :: 0 <= k < |r| ==> |r[k]| == |f.bars|
  {
    if |cs| == 0 then []
    else
      match Evaluate(f, cs[0])
      case Some(row) => [row] + Evaluated(f, cs[1..])
      case None => Evaluated(f, cs[1..])
  }

  predicate Triggered(rows: seq<seq<bool>>, comb: Combinator, t: nat)
    requires forall k :: 0 <= k < |rows| ==> t < |rows[k]|
  {
    match comb
    case All => forall k :: 0 <= k < |rows| ==> rows[k][t]
    case Any => exists k :: 0 <= k < |rows| && rows[k][t]
  }

  /** `generate_signals`: one signal per bar; the strategy's side where the evaluated
      conditions hold together, HOLD elsewhere and everywhere when none was evaluated. */
  function GenerateSignals(f: Frame, s: Strategy): (r: seq<Signal>)
    ensures |r| == |f.bars|
    ensures forall t :: 0 <= t < |r| ==> r[t] == Hold || r[t] == Go(s.side)
    ensures |Evaluated(f, s.conditions)| == 0 ==> forall t :: 0 <= t < |r| ==> r[t] == Hold
  {
    var rows := Evaluated(f, s.conditions);
    seq(|f.bars|, t requires 0 <= t < |f.bars| =>
      if |rows| > 0 && Triggered(rows, s.combinator, t) then Go(s.side) else Hold)
  }

  /** Condition `c` is evaluated and holds at bar `t`. */
  predicate HoldsAt(f: Frame, c: SignalCondition, t: nat)
    requires t < |f.bars|
  {
    Evaluate(f, c).Some? && Evaluate(f, c).value[t]
  }

  /** At least one condition is evaluated (not skipped). */
  predicate SomeEvaluated(f: Frame, cs: seq<SignalCondition>) {
    exists k :: 0 <= k < |cs| && Evaluate(f, cs[k]).Some?
  }

  /** Every evaluated condition holds at bar `t`. */
  predicate EveryEvaluatedHolds(f: Frame, cs: seq<SignalCondition>, t: nat)
    requires t < |f.bars|
  {
    forall k :: 0 <= k < |cs| && Evaluate(f, cs[k]).Some? ==> HoldsAt(f, cs[k], t)
  }

  /** Some condition is evaluated and holds at bar `t`. */
  predicate SomeHolds(f: Frame, cs: seq<SignalCondition>, t: nat)
    requires t < |f.bars|
  {
    exists k :: 0 <= k < |cs| && HoldsAt(f, cs[k], t)
  }

  /** The evaluated series are exactly the series of the conditions that are not skipped:
      there is one when some condition is evaluated, they all hold at `t` when every
      evaluated condition does, and one holds when some evaluated condition does. */
  lemma {:induction false} EvaluatedMatchesConditions(f: Frame, cs: seq<SignalCondition>, t: nat)
    requires t < |f.bars|
    ensures |Evaluated(f, cs)| > 0 <==> SomeEvaluated(f, cs)
    ensures Triggered(Evaluated(f, cs), All, t) <==> EveryEvaluatedHolds(f, cs, t)
    ensures Triggered(Evaluated(f, cs), Any, t) <==> SomeHolds(f, cs, t)
  {
    if |cs| > 0 {
      var tail := cs[1..];
      EvaluatedMatchesConditions(f, tail, t);
      ShiftConditions(f, cs, t);
      match Evaluate(f, cs[0])
      case Some(row) =>
        var rows := Evaluated(f, cs);
        assert rows == [row] + Evaluated(f, tail);
        assert SomeEvaluated(f, cs);
        RowsCons(row, Evaluated(f, tail), t);
      case None =>
        assert Evaluated(f, cs) == Evaluated(f, tail);
    }
  }

  /** The quantifiers over a list of conditions split into its head and its tail. */
  lemma ShiftConditions(f: Frame, cs: seq<SignalCondition>, t: nat)
    requires t < |f.bars| && |cs| > 0
    ensures SomeEvaluated(f, cs) <==> Evaluate(f, cs[0]).Some? || SomeEvaluated(f, cs[1..])
    ensures EveryEvaluatedHolds(f, cs, t)
        <==> (Evaluate(f, cs[0]).Some? ==> HoldsAt(f, cs[0], t)) && EveryEvaluatedHolds(f, cs[1..], t)
    ensures SomeHolds(f, cs, t) <==> HoldsAt(f, cs[0], t) || SomeHolds(f, cs[1..], t)
  {
    ShiftEvaluated(f, cs);
    ShiftEveryHolds(f, cs, t);
    ShiftSomeHolds(f, cs, t);
  }

  lemma ShiftEvaluated(f: Frame, cs: seq<SignalCondition>)
    requires |cs| > 0
    ensures SomeEvaluated(f, cs) <==> Evaluate(f, cs[0]).Some? || SomeEvaluated(f, cs[1..])
  {
    var tail := cs[1..];
    if SomeEvaluated(f, cs) && !Evaluate(f, cs[0]).Some? {
      var k :| 0 <= k < |cs| && Evaluate(f, cs[k]).Some?;
      assert cs[k] == tail[k - 1];
    }
    if SomeEvaluated(f, tail) {
      var k :| 0 <= k < |tail| && Evaluate(f, tail[k]).Some?;
      assert tail[k] == cs[k + 1];
    }
  }

  lemma ShiftEveryHolds(f: Frame, cs: seq<SignalCondition>, t: nat)
    requires t < |f.bars| && |cs| > 0
    ensures EveryEvaluatedHolds(f, cs, t)
        <==> (Evaluate(f, cs[0]).Some? ==> HoldsAt(f, cs[0], t)) && EveryEvaluatedHolds(f, cs[1..], t)
  {
    var tail := cs[1..];
    if EveryEvaluatedHolds(f, cs, t) {
      forall k | 0 <= k < |tail| && Evaluate(f, tail[k]).Some?
        ensures HoldsAt(f, tail[k], t)
      {
        assert tail[k] == cs[k + 1];
      }
    }
    if (Evaluate(f, cs[0]).Some? ==> HoldsAt(f, cs[0], t)) && EveryEvaluatedHolds(f, tail, t) {
      forall k | 0 <= k < |cs| && Evaluate(f, cs[k]).Some?
        ensures HoldsAt(f, cs[k], t)
      {
        if k > 0 { assert cs[k] == tail[k - 1]; }
      }
    }
  }

  lemma ShiftSomeHolds(f: Frame, cs: seq<SignalCondition>, t: nat)
    requires t < |f.bars| && |cs| > 0
    ensures SomeHolds(f, cs, t) <==> HoldsAt(f, cs[0], t) || SomeHolds(f, cs[1..], t)
  {
    var tail := cs[1..];
    if SomeHolds(f, cs, t) && !HoldsAt(f, cs[0], t) {
      var k :| 0 <= k < |cs| && HoldsAt(f, cs[k], t);
      assert cs[k] == tail[k - 1];
    }
    if SomeHolds(f, tail, t) {
      var k :| 0 <= k < |tail| && HoldsAt(f, tail[k], t);
      assert tail[k] == cs[k + 1];
    }
  }

  /** Triggering a row list with one more row in front. */
  lemma RowsCons(row: seq<bool>, rows: seq<seq<bool>>, t: nat)
    requires t < |row| && forall k :: 0 <= k < |rows| ==> t < |rows[k]|
    ensures Triggered([row] + rows, All, t) <==> row[t] && Triggered(rows, All, t)
    ensures Triggered([row] + rows, Any, t) <==> row[t] || Triggered(rows, Any, t)
  {
    var all := [row] + rows;
    assert all[0] == row;
    assert forall k :: 0 <= k < |rows| ==> all[k + 1] == rows[k];
    if Triggered(all, All, t) {
      forall k | 0 <= k < |rows|
        ensures rows[k][t]
      {
        assert all[k + 1][t];
      }
    }
    if Triggered(all, Any, t) && !row[t] {
      var k :| 0 <= k < |all| && all[k][t];
      assert rows[k - 1][t];
    }
    if row[t] && Triggered(rows, All, t) {
      forall k | 0 <= k < |all|
        ensures all[k][t]
      {
        if k > 0 { assert all[k] == rows[k - 1]; }
      }
    }
  }

  /** What a bar's signal means in terms of the strategy's own conditions: under AND the
      bar signals the strategy's side exactly when some condition is evaluated and every
      evaluated condition holds there; under OR exactly when some evaluated condition
      holds there. */
  lemma SignalMeaning(f: Frame, s: Strategy, t: nat)
    requires t < |f.bars|
    ensures s.combinator == All ==>
              (GenerateSignals(f, s)[t] == Go(s.side)
               <==> SomeEvaluated(f, s.conditions) && EveryEvaluatedHolds(f, s.conditions, t))
    ensures s.combinator == Any ==>
              (GenerateSignals(f, s)[t] == Go(s.side) <==> SomeHolds(f, s.conditions, t))
  {
    EvaluatedMatchesConditions(f, s.conditions, t);
  }

  // ---- Properties ----

  /** Crossing above is crossing below with the two lines swapped. */
  lemma CrossSwap(f: Frame, a: string, b: string, t: nat)
    requires t < |f.bars|
    ensures CrossAt(f, a, b, t, true) <==> CrossAt(f, b, a, t, false)
  {
  }

  /** A line never crosses another upward and downward at the same bar, and nothing
      crosses at the first bar. */
  lemma CrossExclusive(f: Frame, a: string, b: string, t: nat)
    requires t < |f.bars|
    ensures !(CrossAt(f, a, b, t, true) && CrossAt(f, a, b, t, false))
    ensures t == 0 ==> !CrossAt(f, a, b, t, true) && !CrossAt(f, a, b, t, false)
  {
  }

  /** On a defined cell `outside` is exactly not `between` with the same bounds; on a NaN
      cell both are false. */
  lemma BetweenOutsideComplement(cell: Option<real>, lo: real, hi: real)
    ensures cell.Some? ==> (RangeAt(Outside, cell, lo, hi) <==> !RangeAt(Between, cell, lo, hi))
    ensures cell.None? ==> !RangeAt(Outside, cell, lo, hi) && !RangeAt(Between, cell, lo, hi)
  {
  }

  /** `not_equals` is the complement of `equals` at every bar, NaN cells included. */
  lemma NotEqualsComplement(cell: Option<real>, x: real)
    ensures CompareAt(NotEquals, cell, x) <==> !CompareAt(Equals, cell, x)
  {
  }

  /** Every bar that signals under AND also signals under OR. */
  lemma AllImpliesAny(f: Frame, s: Strategy, t: nat)
    requires t < |f.bars|
    requires GenerateSignals(f, s.(combinator := All))[t] != Hold
    ensures GenerateSignals(f, s.(combinator := Any))[t] != Hold
  {
    var rows := Evaluated(f, s.conditions);
    assert rows[0][t];
  }

  /** With a single evaluated condition AND and OR give the same signals. */
  lemma SingleConditionCombinatorIrrelevant(f: Frame, s: Strategy)
    requires |Evaluated(f, s.conditions)| == 1
    ensures GenerateSignals(f, s.(combinator := All)) == GenerateSignals(f, s.(combinator := Any))
  {
    var rows := Evaluated(f, s.conditions);
    var a := GenerateSignals(f, s.(combinator := All));
    var b := GenerateSignals(f, s.(combinator := Any));
    forall t | 0 <= t < |f.bars|
      ensures a[t] == b[t]
    {
      SingleRowCombinators(rows, t);
    }
  }

  /** One row is triggered under AND exactly when it is under OR. */
  lemma SingleRowCombinators(rows: seq<seq<bool>>, t: nat)
    requires |rows| == 1 && t < |rows[0]|
    ensures Triggered(rows, All, t) <==> Triggered(rows, Any, t)
  {
    if rows[0][t] { assert Triggered(rows, Any, t); }
  }

  /** A condition that is skipped leaves the evaluated series, and so the signals, as
      they were. */
  lemma {:induction false} SkippedConditionIrrelevant(f: Frame, cs: seq<SignalCondition>, c: SignalCondition)
    requires Evaluate(f, c).None?
    ensures Evaluated(f, cs + [c]) == Evaluated(f, cs)
  {
    if |cs| == 0 {
      assert Evaluated(f, [c]) == Evaluated(f, []);
    } else {
      assert (cs + [c])[1..] == cs[1..] + [c];
      SkippedConditionIrrelevant(f, cs[1..], c);
    }
  }

  /** A condition on an indicator whose column the table lacks is skipped. */
  lemma MissingColumnSkips(f: Frame, c: SignalCondition)
    requires !HasColumn(f, IndicatorColumn(c.indicator))
    ensures Evaluate(f, c).None?
  {
  }
}
