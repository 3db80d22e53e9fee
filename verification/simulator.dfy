/** The portfolio simulation (`PortfolioSimulator.run_simulation`): bar by bar, open a
    position on a signal when flat, close it when an exit rule fires, mark the portfolio
    to market, and wipe it out (a margin call) when its value reaches zero. One equity
    value is recorded per bar. */
module Simulator {
  import opened Wrappers
  import opened Numbers
  import opened Vocabulary
  import opened MarketData
  import opened StrategyConfig
  import opened PositionSizing
  import opened ExitChecks
  import opened Signals

  datatype TradeKind = Open | Closed | MarginCall

  /** One row of the trade log. `portfolio` is the account value the row reports: the cash
      committed from on an open, the cash after a close, zero after a margin call. */
  datatype Trade = Trade(
    bar: nat, kind: TradeKind, side: Side, price: real, portfolio: real,
    pnl: Option<real>, positionSize: Option<real>)

  /** `shares` is signed: positive for a long, negative for a short. `extreme` is the best
      price since entry (highest for a long, lowest for a short). */
  datatype Position =
    | Flat
    | Holding(side: Side, shares: real, entryPrice: real, entryPortfolio: real, extreme: real)

  datatype State = State(cash: real, pos: Position, equity: seq<real>, trades: seq<Trade>)

  /** What a simulation runs on: the table, one signal per bar, the strategy, the clamped
      leverage and the starting cash. */
  datatype Setup = Setup(frame: Frame, signals: seq<Signal>, strategy: Strategy, leverage: real, initialCash: real)

  predicate ValidSetup(s: Setup) {
    |s.signals| == |s.frame.bars| && 1.0 <= s.leverage <= 10.0 && s.initialCash > 0.0
  }

  const MinLeverage: real := 1.0
  const MaxLeverage: real := 10.0

  /** The leverage the simulator uses: the requested one clamped to [1, 10]. */
  function ClampLeverage(l: real): (r: real)
    ensures MinLeverage <= r <= MaxLeverage
    ensures MinLeverage <= l <= MaxLeverage ==> r == l
    ensures l < MinLeverage ==> r == MinLeverage
    ensures l > MaxLeverage ==> r == MaxLeverage
  {
    MaxReal(MinLeverage, MinReal(MaxLeverage, l))
  }

  function Abs(x: real): (r: real)
    ensures r >= 0.0 && (r == x || r == -x)
  {
    if x < 0.0 then -x else x
  }

  function Last<T>(xs: seq<T>): T
    requires |xs| > 0
  {
    xs[|xs| - 1]
  }

  /** The profit or loss of the open position at `price`. */
  function OpenPnl(p: Position, price: real): real
    requires p.Holding?
  {
    Gain(p.side, p.entryPrice, price) * Abs(p.shares)
  }

  /** The account value at `price`: the portfolio committed at entry plus the open profit
      while holding, the cash while flat. */
  function Value(p: Position, cash: real, price: real): real {
    if p.Holding? then p.entryPortfolio + OpenPnl(p, price) else cash
  }

  /** The ATR the sizer receives: the configured `atr_<period>` cell for volatility
      sizing, when the table has that column and the cell is defined. */
  function AtrFor(s: Setup, i: nat): Option<real>
    requires i < |s.frame.bars|
  {
    var e := s.strategy.entry;
    if e.sizing == Some(VolatilityBased) && e.volatilityColumn.Some? && e.volatilityColumn.value in s.frame.columns
    then Cell(s.frame, i, e.volatilityColumn.value)
    else None
  }

  /** Opening a position: size it from the cash, lever it, keep the unlevered size aside
      as margin, and log the open. */
  function Enter(s: Setup, st: State, i: nat, side: Side, price: real): (r: State)
    requires i < |s.frame.bars| && price > 0.0
    ensures r.pos.Holding? && r.pos.side == side && r.pos.entryPrice == price
    ensures r.pos.entryPortfolio == st.cash && r.pos.extreme == price
    ensures r.equity == st.equity && |r.trades| == |st.trades| + 1 && r.trades[..|st.trades|] == st.trades
    ensures Last(r.trades).kind == Open && Last(r.trades).bar == i && Last(r.trades).side == side
    ensures Value(r.pos, r.cash, price) == st.cash
  {
    var size := PositionSize(s.strategy.entry, st.cash, price, AtrFor(s, i));
    var units := size * s.leverage / price;
    var shares := if side == Long then units else -units;
    var p := Holding(side, shares, price, st.cash, price);
    assert Gain(side, price, price) == 0.0;
    State(st.cash - size, p, st.equity, st.trades + [Trade(i, Open, side, price, st.cash, None, Some(size))])
  }

  /** The cash after closing: the portfolio committed at entry plus the realised
      profit or loss, so closing leaves the account value unchanged. Closing at the entry
      price gives back the entry portfolio, and a position that holds shares comes out
      at or above it exactly when the price moved its way. */
  function ExitCash(p: Position, price: real): (r: real)
    requires p.Holding?
    ensures price == p.entryPrice ==> r == p.entryPortfolio
    ensures p.shares != 0.0 ==> (r >= p.entryPortfolio <==> Gain(p.side, p.entryPrice, price) >= 0.0)
    ensures p.shares != 0.0 ==> (r > p.entryPortfolio <==> Gain(p.side, p.entryPrice, price) > 0.0)
  {
    SignOfProduct(Gain(p.side, p.entryPrice, price), Abs(p.shares));
    p.entryPortfolio + OpenPnl(p, price)
  }

  /** A product with a positive factor has the sign of the other factor. */
  lemma SignOfProduct(g: real, a: real)
    requires a >= 0.0
    ensures a > 0.0 ==> (g * a >= 0.0 <==> g >= 0.0) && (g * a > 0.0 <==> g > 0.0)
  {
    if a > 0.0 && g < 0.0 {
      assert g * a < 0.0 * a;
    }
  }

  /** The cash after closing as the simulator computes it: the entry portfolio plus
      `trade_value - entry_portfolio * leverage` (mirrored for a short), which equals the
      realised result only when the whole portfolio was committed. */
  function ExitCashAsWritten(p: Position, price: real, leverage: real): real
    requires p.Holding?
  {
    var tradeValue := Abs(p.shares) * price;
    var profitLoss := match p.side
      case Long => tradeValue - p.entryPortfolio * leverage
      case Short => p.entryPortfolio * leverage - tradeValue;
    p.entryPortfolio + profitLoss
  }

  /** Closing on an exit rule. */
  function Exit(st: State, i: nat, price: real): (r: State)
    requires st.pos.Holding?
    ensures r.pos.Flat? && r.cash == Value(st.pos, st.cash, price)
    ensures r.equity == st.equity && |r.trades| == |st.trades| + 1 && r.trades[..|st.trades|] == st.trades
    ensures Last(r.trades).kind == Closed && Last(r.trades).bar == i && Last(r.trades).side == st.pos.side
  {
    var cash := ExitCash(st.pos, price);
    State(cash, Flat, st.equity,
          st.trades + [Trade(i, Closed, st.pos.side, price, cash, Some(OpenPnl(st.pos, price)), None)])
  }

  /** The equity recorded for a bar whose price is not positive: the last recorded value
      (nothing can have changed since), or the cash before the first bar. */
  function InvalidBarEquity(st: State): real {
    if |st.equity| == 0 then st.cash else Last(st.equity)
  }

  /** The equity the simulator records for such a bar: cash plus the signed position at
      the previous close; None (NaN) when that close is NaN. */
  function InvalidBarEquityAsWritten(st: State, f: Frame, i: nat): Option<real>
    requires i < |f.bars|
  {
    var shares := if st.pos.Holding? then st.pos.shares else 0.0;
    match (if i > 0 then f.bars[i - 1].close else f.bars[i].close)
    case Some(c) => Some(st.cash + shares * c)
    case None => None
  }

  /** An entry is taken on a signal when flat, with cash, and after a bar whose recorded
      equity is positive. */
  predicate CanEnter(s: Setup, st: State, i: nat)
    requires i < |s.signals|
  {
    s.signals[i].Go? && st.pos.Flat? && st.cash > 0.0 && |st.equity| > 0 && Last(st.equity) > 0.0
  }

  predicate ExitFires(s: Setup, st: State, i: nat, price: real)
    requires i < |s.frame.bars| && price > 0.0
    requires st.pos.Holding? ==> st.pos.entryPrice > 0.0 && st.pos.extreme > 0.0
  {
    st.pos.Holding? && st.pos.shares != 0.0
    && ShouldExit(s.strategy.exit, st.pos.side, st.pos.entryPrice, price, st.pos.extreme, s.frame, i).Some?
  }

  /** Updates the best price since entry. */
  function Track(p: Position, price: real): (r: Position)
    ensures r.Holding? == p.Holding?
    ensures p.Holding? ==> r == p.(extreme := Extreme(p.side, p.extreme, price))
  {
    if p.Holding? then p.(extreme := Extreme(p.side, p.extreme, price)) else p
  }

  /** The margin call: the account is wiped out and the position closed at `price`. */
  function MarginOut(st: State, i: nat, price: real): (r: State)
    requires st.pos.Holding?
    ensures r.pos.Flat? && r.cash == 0.0 && r.equity == st.equity
    ensures |r.trades| == |st.trades| + 1 && r.trades[..|st.trades|] == st.trades && Last(r.trades).kind == MarginCall
    ensures Last(r.trades).bar == i && Last(r.trades).side == st.pos.side
  {
    State(0.0, Flat, st.equity,
          st.trades + [Trade(i, MarginCall, st.pos.side, price, 0.0, Some(OpenPnl(st.pos, price)), None)])
  }

  /** The trading decision of a bar with a valid price: open on a signal when allowed,
      otherwise close when an exit rule fires. */
  function Act(s: Setup, st: State, i: nat, price: real): (r: State)
    requires ValidSetup(s) && i < |s.frame.bars| && price > 0.0
    requires st.pos.Holding? ==> st.pos.entryPrice > 0.0 && st.pos.extreme > 0.0
    ensures r.equity == st.equity
  {
    if CanEnter(s, st, i) then Enter(s, st, i, s.signals[i].side, price)
    else if ExitFires(s, st, i, price) then Exit(st, i, price)
    else st
  }

  /** Marks the account to market at the end of a bar and records the equity; a value at
      or below zero triggers the margin call and is recorded as zero. */
  function Settle(t: State, equity: seq<real>, i: nat, price: real): (r: State)
    ensures r.equity == equity + [MaxReal(0.0, Value(t.pos, t.cash, price))]
  {
    var value := Value(t.pos, t.cash, price);
    if value <= 0.0 then
      var wiped := if t.pos.Holding? && t.pos.shares != 0.0 then MarginOut(t, i, price) else t;
      wiped.(equity := equity + [0.0])
    else
      t.(equity := equity + [value])
  }

  /** One bar of the simulation. */
  function Step(s: Setup, st: State, i: nat): (r: State)
    requires ValidSetup(s) && i < |s.frame.bars| && |st.equity| == i
    requires st.pos.Holding? ==> st.pos.entryPrice > 0.0 && st.pos.extreme > 0.0
    ensures |r.equity| == i + 1 && r.equity[..i] == st.equity
  {
    match s.frame.bars[i].close
    case None => st.(equity := st.equity + [InvalidBarEquity(st)])
    case Some(price) =>
      if price <= 0.0 then
        st.(equity := st.equity + [InvalidBarEquity(st)])
      else
        var acted := Act(s, st, i, price);
        Settle(acted.(pos := Track(acted.pos, price)), st.equity, i, price)
  }

  // ---- Invariants of a run ----

  /** The trade log alternates opens and closes, one trade per bar at most, never on the
      first bar, and each close is on the side of the open before it. */
  predicate TradeLogOk(trades: seq<Trade>, n: nat) {
    && (forall k :: 0 <= k < |trades| ==> 1 <= trades[k].bar < n)
    && (forall k :: 0 < k < |trades| ==> trades[k - 1].bar < trades[k].bar)
    && (forall k :: 0 <= k < |trades| ==> (trades[k].kind == Open <==> k % 2 == 0))
    && (forall k :: 0 < k < |trades| && k % 2 == 1 ==> trades[k].side == trades[k - 1].side)
  }

  /** The position agrees with the log: holding exactly after an open, on its side. */
  predicate PositionOk(st: State) {
    && (st.pos.Holding? <==> |st.trades| % 2 == 1)
    && (st.pos.Holding? ==> st.pos.entryPrice > 0.0 && st.pos.extreme > 0.0 && Last(st.trades).side == st.pos.side)
  }

  /** What holds after `n` bars. */
  predicate Inv(s: Setup, st: State, n: nat) {
    && |st.equity| == n
    && (forall k :: 0 <= k < n ==> st.equity[k] >= 0.0)
    && (n == 0 ==> st.cash == s.initialCash && st.pos.Flat? && st.trades == [])
    && TradeLogOk(st.trades, n)
    && PositionOk(st)
  }

  function Initial(s: Setup): (r: State)
    ensures Inv(s, r, 0)
  {
    State(s.initialCash, Flat, [], [])
  }

  lemma AppendTradeKeepsLog(trades: seq<Trade>, t: Trade, n: nat)
    requires TradeLogOk(trades, n)
    requires 1 <= t.bar == n
    requires (t.kind == Open) == (|trades| % 2 == 0)
    requires |trades| % 2 == 1 ==> t.side == Last(trades).side
    ensures TradeLogOk(trades + [t], n + 1)
  {
  }

  lemma LogGrows(trades: seq<Trade>, n: nat)
    requires TradeLogOk(trades, n)
    ensures TradeLogOk(trades, n + 1)
  {
  }

  /** The decision of a bar keeps the log and position consistent; a trade it logs leaves
      the account flat or with a positive value. */
  lemma ActKeepsLog(s: Setup, st: State, i: nat, price: real)
    requires ValidSetup(s) && i < |s.frame.bars| && price > 0.0 && Inv(s, st, i)
    ensures var r := Act(s, st, i, price);
      && TradeLogOk(r.trades, i + 1) && PositionOk(r)
      && (r.trades == st.trades || r.pos.Flat? || Value(r.pos, r.cash, price) > 0.0)
      && (r.trades == st.trades ==> r == st)
  {
    if CanEnter(s, st, i) {
      EnterKeepsLog(s, st, i, price);
    } else if ExitFires(s, st, i, price) {
      ExitKeepsLog(st, i, price);
    } else {
      LogGrows(st.trades, i);
    }
  }

  lemma EnterKeepsLog(s: Setup, st: State, i: nat, price: real)
    requires ValidSetup(s) && i < |s.frame.bars| && price > 0.0 && Inv(s, st, i) && CanEnter(s, st, i)
    ensures var r := Enter(s, st, i, s.signals[i].side, price);
      TradeLogOk(r.trades, i + 1) && PositionOk(r) && Value(r.pos, r.cash, price) > 0.0
  {
    var r := Enter(s, st, i, s.signals[i].side, price);
    AppendTradeKeepsLog(st.trades, Last(r.trades), i);
    assert r.trades == st.trades + [Last(r.trades)];
  }

  lemma ExitKeepsLog(st: State, i: nat, price: real)
    requires 1 <= i && TradeLogOk(st.trades, i) && PositionOk(st) && st.pos.Holding?
    ensures var r := Exit(st, i, price); TradeLogOk(r.trades, i + 1) && PositionOk(r)
  {
    var r := Exit(st, i, price);
    AppendTradeKeepsLog(st.trades, Last(r.trades), i);
    assert r.trades == st.trades + [Last(r.trades)];
  }

  /** Settling a bar keeps the log and position consistent and records a non-negative
      equity. */
  lemma SettleKeepsLog(before: seq<Trade>, t: State, equity: seq<real>, i: nat, price: real)
    requires TradeLogOk(before, i) && TradeLogOk(t.trades, i + 1) && PositionOk(t)
    requires t.trades == before || t.pos.Flat? || Value(t.pos, t.cash, price) > 0.0
    ensures var r := Settle(t, equity, i, price);
      TradeLogOk(r.trades, i + 1) && PositionOk(r) && Last(r.equity) >= 0.0
  {
    var value := Value(t.pos, t.cash, price);
    if value <= 0.0 && t.pos.Holding? && t.pos.shares != 0.0 {
      MarginOutKeepsLog(t, i, price);
      assert Settle(t, equity, i, price).trades == MarginOut(t, i, price).trades;
    }
  }

  /** A margin call on bar `i` closes the open trade in the log. */
  lemma MarginOutKeepsLog(t: State, i: nat, price: real)
    requires t.pos.Holding? && TradeLogOk(t.trades, i) && PositionOk(t)
    ensures TradeLogOk(MarginOut(t, i, price).trades, i + 1) && PositionOk(MarginOut(t, i, price))
  {
    var wiped := MarginOut(t, i, price);
    var last := Last(wiped.trades);
    assert wiped.trades == t.trades + [last];
    assert 1 <= t.trades[0].bar < i;
    AppendTradeKeepsLog(t.trades, last, i);
  }

  lemma {:induction false} StepKeepsInv(s: Setup, st: State, i: nat)
    requires ValidSetup(s) && i < |s.frame.bars| && Inv(s, st, i)
    ensures Inv(s, Step(s, st, i), i + 1)
  {
    var r := Step(s, st, i);
    if s.frame.bars[i].close.None? || s.frame.bars[i].close.value <= 0.0 {
      LogGrows(st.trades, i);
      assert r.equity[i] >= 0.0;
      InvOfParts(s, st, r, i);
    } else {
      PricedBarKeepsLog(s, st, i, s.frame.bars[i].close.value);
      InvOfParts(s, st, r, i);
    }
  }

  /** A priced bar keeps the log and position consistent and records a non-negative
      equity. */
  lemma PricedBarKeepsLog(s: Setup, st: State, i: nat, price: real)
    requires ValidSetup(s) && i < |s.frame.bars| && Inv(s, st, i) && s.frame.bars[i].close == Some(price) && price > 0.0
    ensures var r := Step(s, st, i);
      TradeLogOk(r.trades, i + 1) && PositionOk(r) && r.equity == st.equity + [Last(r.equity)] && Last(r.equity) >= 0.0
  {
    var acted := Act(s, st, i, price);
    ActKeepsLog(s, st, i, price);
    var tracked := acted.(pos := Track(acted.pos, price));
    TrackKeepsValue(acted.pos, acted.cash, price);
    assert PositionOk(tracked);
    SettleKeepsLog(st.trades, tracked, st.equity, i, price);
    assert Step(s, st, i) == Settle(tracked, st.equity, i, price);
  }

  /** Following the extreme price does not change what the position is worth. */
  lemma TrackKeepsValue(p: Position, cash: real, price: real)
    ensures Value(Track(p, price), cash, price) == Value(p, cash, price)
  {
  }

  /** The invariant after a bar from its parts: one more non-negative equity value, and a
      consistent log and position. */
  lemma InvOfParts(s: Setup, st: State, r: State, i: nat)
    requires Inv(s, st, i)
    requires |r.equity| == i + 1 && r.equity[..i] == st.equity && r.equity[i] >= 0.0
    requires TradeLogOk(r.trades, i + 1) && PositionOk(r)
    ensures Inv(s, r, i + 1)
  {
    forall k | 0 <= k < i + 1
      ensures r.equity[k] >= 0.0
    {
      if k < i {
        assert r.equity[k] == r.equity[..i][k];
      }
    }
  }

  /** The state after the first `n` bars. */
  function RunBars(s: Setup, n: nat): (r: State)
    requires ValidSetup(s) && n <= |s.frame.bars|
    ensures Inv(s, r, n)
  {
    if n == 0 then Initial(s)
    else
      var prev := RunBars(s, n - 1);
      StepKeepsInv(s, prev, n - 1);
      Step(s, prev, n - 1)
  }

  // ---- Results ----

  datatype Report = Report(equity: seq<real>, trades: seq<Trade>, finalEquity: real, returnPercent: real, tradeCount: nat)

  /** Why a backtest produced an error result instead of statistics. */
  datatype Failure =
    | NoData                              // 'Backtest generated no data.'
    | NoDataAfterIndicators               // 'No valid data after calculating indicators'
    | SimulationFailed(error: DecodeError) // the simulator raised on a malformed field

  datatype BacktestOutcome = Completed(report: Report) | Errored(failure: Failure)

  /** `_format_results`: the last equity value, the return on the starting cash in
      percent, and the number of logged trades. */
  function FormatResults(initialCash: real, st: State): BacktestOutcome
    requires initialCash > 0.0
  {
    if |st.equity| == 0 then Errored(NoData)
    else
      var final := Last(st.equity);
      Completed(Report(st.equity, st.trades, final, ((final - initialCash) / initialCash) * 100.0, |st.trades|))
  }

  /** `PortfolioSimulator(...).run_simulation()` on a table, its signals and a strategy. */
  function Simulate(f: Frame, signals: seq<Signal>, strategy: Strategy, leverage: real, initialCash: real): (r: BacktestOutcome)
    requires initialCash > 0.0 && |signals| == |f.bars|
    ensures |f.bars| == 0 <==> r == Errored(NoData)
    ensures r.Completed? ==>
              && |r.report.equity| == |f.bars|
              && (forall k :: 0 <= k < |f.bars| ==> r.report.equity[k] >= 0.0)
              && r.report.finalEquity == r.report.equity[|f.bars| - 1]
              && r.report.tradeCount == |r.report.trades|
              && r.report.returnPercent >= -100.0
              && TradeLogOk(r.report.trades, |f.bars|)
  {
    var s := Setup(f, signals, strategy, ClampLeverage(leverage), initialCash);
    var st := RunBars(s, |f.bars|);
    if |st.equity| == 0 then FormatResults(initialCash, st)
    else
      ReturnAtLeastMinus100(Last(st.equity), initialCash);
      FormatResults(initialCash, st)
  }

  /** A non-negative final equity loses at most the whole starting cash. */
  lemma ReturnAtLeastMinus100(final: real, initial: real)
    requires final >= 0.0 && initial > 0.0
    ensures ((final - initial) / initial) * 100.0 >= -100.0
  {
    var q := final / initial;
    assert q >= 0.0;
    assert final - initial == (q - 1.0) * initial;
    DivOfMul(q - 1.0, initial);
  }

  lemma DivOfMul(a: real, b: real)
    requires b != 0.0
    ensures (a * b) / b == a
  {
  }

  // ---- Where the simulator as written departs from its evident intent ----

  /** The closing cash as written agrees with the realised result exactly when the levered
      position was the whole entry portfolio times the leverage. */
  lemma ExitCashAsWrittenAgreement(p: Position, price: real, leverage: real)
    requires p.Holding?
    ensures ExitCashAsWritten(p, price, leverage) == ExitCash(p, price)
        <==> Abs(p.shares) * p.entryPrice == p.entryPortfolio * leverage
  {
    var a := Abs(p.shares);
    var e := p.entryPortfolio * leverage;
    AsWrittenCash(p, price, leverage);
    match p.side
    case Long =>
      assert OpenPnl(p, price) == (price - p.entryPrice) * a;
      assert ExitCash(p, price) == p.entryPortfolio + OpenPnl(p, price);
      SubTimes(price, p.entryPrice, a);
      assert ExitCash(p, price) == p.entryPortfolio + (a * price - a * p.entryPrice);
      assert ExitCashAsWritten(p, price, leverage) == p.entryPortfolio + (a * price - e);
    case Short =>
      assert OpenPnl(p, price) == (p.entryPrice - price) * a;
      assert ExitCash(p, price) == p.entryPortfolio + OpenPnl(p, price);
      SubTimes(p.entryPrice, price, a);
      assert ExitCash(p, price) == p.entryPortfolio + (a * p.entryPrice - a * price);
      assert ExitCashAsWritten(p, price, leverage) == p.entryPortfolio + (e - a * price);
  }

  lemma AsWrittenCash(p: Position, price: real, leverage: real)
    requires p.Holding?
    ensures p.side == Long ==>
      ExitCashAsWritten(p, price, leverage) == p.entryPortfolio + (Abs(p.shares) * price - p.entryPortfolio * leverage)
    ensures p.side == Short ==>
      ExitCashAsWritten(p, price, leverage) == p.entryPortfolio + (p.entryPortfolio * leverage - Abs(p.shares) * price)
  {
  }

  lemma SubTimes(x: real, y: real, a: real)
    ensures (x - y) * a == a * x - a * y
  {
  }

  /** A long strategy committing the default 2% of 10000 at 100 without leverage, closed
      at 95: the account is worth 9990, the closing cash as written is 190. */
  const ExampleEntry := Entry(Some(FixedPercentage), 2.0, 10.0, 1.0, None)
  const ExampleStrategy := Strategy([], All, Long, ExampleEntry, ExitRules(None, None))
  const ExampleFrame := Frame({}, [Bar(Some(100.0), map[]), Bar(Some(100.0), map[]), Bar(Some(95.0), map[])])
  const ExampleSetup := Setup(ExampleFrame, [Hold, Go(Long), Hold], ExampleStrategy, 1.0, 10000.0)

  lemma ExitCashExample()
    ensures var held := Enter(ExampleSetup, State(10000.0, Flat, [10000.0], []), 1, Long, 100.0);
      && held.pos == Holding(Long, 2.0, 100.0, 10000.0, 100.0)
      && Value(held.pos, held.cash, 95.0) == 9990.0
      && ExitCash(held.pos, 95.0) == 9990.0
      && ExitCashAsWritten(held.pos, 95.0, 1.0) == 190.0
  {
    var held := Enter(ExampleSetup, State(10000.0, Flat, [10000.0], []), 1, Long, 100.0);
    assert PositionSize(ExampleEntry, 10000.0, 100.0, None) == 200.0;
  }

  /** A short committing 10% of 10000 at 100 with 10x leverage holds 100 shares short and
      9000 cash; a following bar without a valid price is recorded as written at
      9000 - 100 * 100 = -1000, below zero. */
  const ShortEntry := Entry(Some(FixedPercentage), 10.0, 10.0, 1.0, None)
  const ShortSetup := Setup(
    Frame({}, [Bar(Some(100.0), map[]), Bar(Some(100.0), map[]), Bar(Some(0.0), map[])]),
    [Hold, Go(Short), Hold],
    Strategy([], All, Short, ShortEntry, ExitRules(None, None)), 10.0, 10000.0)

  lemma InvalidBarExample()
    ensures var held := Enter(ShortSetup, State(10000.0, Flat, [10000.0], []), 1, Short, 100.0);
      && held.cash == 9000.0 && held.pos.shares == -100.0
      && InvalidBarEquityAsWritten(held.(equity := [10000.0, 10000.0]), ShortSetup.frame, 2) == Some(-1000.0)
      && InvalidBarEquity(held.(equity := [10000.0, 10000.0])) == 10000.0
  {
    assert PositionSize(ShortEntry, 10000.0, 100.0, None) == 1000.0;
  }

  /** The exit check as written: the trailing reference handed to the exit rules is the
      entry price for the whole life of the position. */
  predicate ExitFiresAsWritten(s: Setup, st: State, i: nat, price: real)
    requires i < |s.frame.bars| && price > 0.0
    requires st.pos.Holding? ==> st.pos.entryPrice > 0.0
  {
    st.pos.Holding? && st.pos.shares != 0.0
    && ShouldExit(s.strategy.exit, st.pos.side, st.pos.entryPrice, price, st.pos.entryPrice, s.frame, i).Some?
  }

  /** A 5% trailing stop on a long entered at 100 that has since traded at 150: at 140 the
      price is 6.7% off its high, so the stop fires; handed the entry price instead, it
      does not. */
  lemma TrailingStopExample()
    ensures var rules := ExitRules(Some(StopLoss(TrailingPercentage, 5.0, None, 0.0)), None);
      var f := Frame({}, [Bar(Some(140.0), map[])]);
      && ShouldExit(rules, Long, 100.0, 140.0, 150.0, f, 0).Some?
      && ShouldExit(rules, Long, 100.0, 140.0, 100.0, f, 0).None?
  {
    var x := Extreme(Long, 150.0, 140.0);
    assert x == 150.0;
    assert Retrace(Long, 150.0, 140.0) == (10.0 / 150.0) * 100.0;
  }

  /** The running extreme never falls behind the entry price or any price seen since. */
  lemma TrackKeepsExtreme(p: Position, price: real)
    requires p.Holding?
    ensures p.side == Long ==> Track(p, price).extreme >= p.extreme && Track(p, price).extreme >= price
    ensures p.side == Short ==> Track(p, price).extreme <= p.extreme && Track(p, price).extreme <= price
  {
  }
}
