/** `run_backtest`: input guards, configuration validation, then indicators, signals and
    the simulation; anything that goes wrong after validation is reported as an error
    result rather than raised. The indicator computation is a parameter: the table with
    the indicator columns added is passed in beside the raw one. */
module Backtest {
  import opened Wrappers
  import opened Json
  import opened MarketData
  import opened StrategyValidation
  import opened StrategyConfig
  import opened Signals
  import opened Simulator

  /** The errors `run_backtest` raises to its caller. */
  datatype RunError = EmptyData | NonPositiveCash | InvalidConfig(error: ConfigError)

  /** `run_backtest(data, config, initial_cash, leverage)`, where `enriched` is
      `add_indicators_to_data(data)`. */
  function RunBacktest(data: Frame, enriched: Frame, config: Json, initialCash: real, leverage: real)
    : (r: Result<BacktestOutcome, RunError>)
    ensures r == Err(EmptyData) <==> |data.bars| == 0
    ensures |data.bars| > 0 ==> (r == Err(NonPositiveCash) <==> initialCash <= 0.0)
    ensures r.Ok? <==> |data.bars| > 0 && initialCash > 0.0 && WellFormed(config)
    ensures r.Err? && r.error.InvalidConfig? ==> Validate(config) == Fail(r.error.error)
    ensures r.Ok? ==> (r.value == Errored(NoDataAfterIndicators) <==> |enriched.bars| == 0)
    ensures r.Ok? && |enriched.bars| > 0 ==> (r.value.Errored? <==> !OptionalFieldsOk(config))
    ensures r.Ok? && r.value.Completed? ==>
              && |r.value.report.equity| == |enriched.bars|
              && r.value.report.returnPercent >= -100.0
              && r.value.report.tradeCount == |r.value.report.trades|
  {
    if |data.bars| == 0 then Err(EmptyData)
    else if initialCash <= 0.0 then Err(NonPositiveCash)
    else
      match Validate(config)
      case Fail(e) => Err(InvalidConfig(e))
      case Pass =>
        if |enriched.bars| == 0 then Ok(Errored(NoDataAfterIndicators))
        else
          match Decode(config)
          case Err(e) => Ok(Errored(SimulationFailed(e)))
          case Ok(strategy) =>
            Ok(Simulate(enriched, GenerateSignals(enriched, strategy), strategy, leverage, initialCash))
  }

  /** Clamping the leverage before the call changes nothing: the simulator clamps it itself. */
  lemma LeverageClampIdempotent(data: Frame, enriched: Frame, config: Json, initialCash: real, leverage: real)
    ensures RunBacktest(data, enriched, config, initialCash, ClampLeverage(leverage))
         == RunBacktest(data, enriched, config, initialCash, leverage)
  {
    assert ClampLeverage(ClampLeverage(leverage)) == ClampLeverage(leverage);
  }

  /** A strategy whose conditions are all skipped never trades: the equity curve is the
      starting cash throughout and the return is zero. */
  lemma NoSignalsNoTrades(f: Frame, strategy: Strategy, leverage: real, initialCash: real)
    requires initialCash > 0.0 && |f.bars| > 0
    requires |Evaluated(f, strategy.conditions)| == 0
    ensures var r := Simulate(f, GenerateSignals(f, strategy), strategy, leverage, initialCash);
      && r.Completed?
      && r.report.tradeCount == 0
      && (forall k :: 0 <= k < |f.bars| ==> r.report.equity[k] == initialCash)
      && r.report.returnPercent == 0.0
  {
    IdleSimulation(f, GenerateSignals(f, strategy), strategy, leverage, initialCash);
  }

  /** A simulation over signals that are all Hold completes with no trades, the starting
      cash throughout and a zero return. */
  lemma IdleSimulation(f: Frame, signals: seq<Signal>, strategy: Strategy, leverage: real, initialCash: real)
    requires initialCash > 0.0 && |f.bars| > 0 && |signals| == |f.bars|
    requires forall t :: 0 <= t < |signals| ==> signals[t] == Hold
    ensures var r := Simulate(f, signals, strategy, leverage, initialCash);
      && r.Completed?
      && r.report.tradeCount == 0
      && (forall k :: 0 <= k < |f.bars| ==> r.report.equity[k] == initialCash)
      && r.report.returnPercent == 0.0
  {
    var s := Setup(f, signals, strategy, ClampLeverage(leverage), initialCash);
    IdleRun(s, |f.bars|);
    var st := RunBars(s, |f.bars|);
    assert Last(st.equity) == initialCash;
    assert Simulate(f, signals, strategy, leverage, initialCash) == FormatResults(initialCash, st);
  }

  /** Without any entry signal the account stays flat and every recorded value is the
      starting cash. */
  lemma {:induction false} IdleRun(s: Setup, n: nat)
    requires ValidSetup(s) && n <= |s.frame.bars|
    requires forall t :: 0 <= t < |s.signals| ==> s.signals[t] == Hold
    ensures var st := RunBars(s, n);
      && st.pos == Flat && st.cash == s.initialCash && |st.trades| == 0 && |st.equity| == n
      && (forall k :: 0 <= k < n ==> st.equity[k] == s.initialCash)
  {
    if n > 0 {
      IdleRun(s, n - 1);
      var prev := RunBars(s, n - 1);
      IdleStep(s, prev, n - 1);
      assert RunBars(s, n) == Step(s, prev, n - 1);
      IdleGrows(prev.equity, s.initialCash);
    }
  }

  /** Recording the starting cash once more keeps every recorded value the starting cash. */
  lemma IdleGrows(equity: seq<real>, cash: real)
    requires forall k :: 0 <= k < |equity| ==> equity[k] == cash
    ensures forall k :: 0 <= k < |equity + [cash]| ==> (equity + [cash])[k] == cash
  {
  }

  /** A bar without a signal, taken flat with the starting cash, records the starting
      cash and changes nothing else. */
  lemma IdleStep(s: Setup, st: State, i: nat)
    requires ValidSetup(s) && i < |s.frame.bars| && |st.equity| == i && s.signals[i] == Hold
    requires st.pos == Flat && st.cash == s.initialCash && |st.trades| == 0
    requires forall k :: 0 <= k < i ==> st.equity[k] == s.initialCash
    ensures Step(s, st, i) == st.(equity := st.equity + [s.initialCash])
  {
    if s.frame.bars[i].close.Some? && s.frame.bars[i].close.value > 0.0 {
      var price := s.frame.bars[i].close.value;
      assert !CanEnter(s, st, i);
      assert Act(s, st, i, price) == st;
    } else if i > 0 {
      assert Last(st.equity) == st.equity[i - 1];
    }
  }
}
