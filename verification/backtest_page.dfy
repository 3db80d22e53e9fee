/** The backtest page: the checks on the run form, the request it sends, how the reply
    is shown, the win rate computed from the trade log, and the exit-reason column. */
module BacktestPage {
  import opened Wrappers
  import opened Text
  import opened Numbers
  import opened Json
  import opened JsValues
  import opened Vocabulary
  import opened Simulator

  /** The form as typed. Dates are day numbers; None is a date string `new Date`
      cannot read (an Invalid Date). */
  datatype RunForm = RunForm(
    strategy: string, ticker: string, cash: string, leverage: string,
    startDate: Option<int>, endDate: Option<int>, timeframe: string)

  /** The body posted to the backtest endpoint. */
  datatype RunRequest = RunRequest(
    strategyId: string, ticker: string, startDate: Option<int>, endDate: Option<int>,
    timeframe: string, cash: real, leverage: real)

  /** The first failed check, one per message the page shows:
      'Please select a strategy.', 'Please enter a ticker symbol.',
      'Please enter a valid starting capital amount.', 'Leverage must be between 1x
      and 10x.' and 'End date must be after start date.'. */
  datatype RunError = NoStrategy | NoTicker | BadCash | BadLeverage | BadDates

  /** `new Date(start) >= new Date(end)`; any comparison with an Invalid Date is false. */
  predicate DatesOutOfOrder(start: Option<int>, end: Option<int>) {
    start.Some? && end.Some? && start.value >= end.value
  }

  predicate CashOk(cash: string) {
    JsParseFloat(cash).Some? && JsParseFloat(cash).value > 0.0
  }

  predicate LeverageOk(leverage: string) {
    JsParseFloat(leverage).Some? && 1.0 <= JsParseFloat(leverage).value <= 10.0
  }

  /** `handleRunBacktest` up to the request: the checks in page order, the first failure
      reported and nothing sent; otherwise the request, ticker trimmed and upper-cased. */
  function ValidateRun(f: RunForm): (r: Result<RunRequest, RunError>)
    ensures r == Err(NoStrategy) <==> f.strategy == ""
    ensures r == Err(NoTicker) <==> f.strategy != "" && Trim(f.ticker) == ""
    ensures r == Err(BadCash) <==> f.strategy != "" && Trim(f.ticker) != "" && !CashOk(f.cash)
    ensures r == Err(BadLeverage) <==>
              f.strategy != "" && Trim(f.ticker) != "" && CashOk(f.cash) && !LeverageOk(f.leverage)
    ensures r.Ok? <==>
              f.strategy != "" && Trim(f.ticker) != "" && CashOk(f.cash) && LeverageOk(f.leverage)
              && !DatesOutOfOrder(f.startDate, f.endDate)
    ensures r.Ok? ==> && r.value.ticker == Upper(Trim(f.ticker)) && r.value.ticker != ""
                      && r.value.cash > 0.0 && 1.0 <= r.value.leverage <= 10.0
                      && r.value.strategyId == f.strategy
                      && r.value.startDate == f.startDate && r.value.endDate == f.endDate
  {
    if f.strategy == "" then Err(NoStrategy)
    else if Trim(f.ticker) == "" then Err(NoTicker)
    else if !CashOk(f.cash) then Err(BadCash)
    else if !LeverageOk(f.leverage) then Err(BadLeverage)
    else if DatesOutOfOrder(f.startDate, f.endDate) then Err(BadDates)
    else Ok(RunRequest(f.strategy, Upper(Trim(f.ticker)), f.startDate, f.endDate, f.timeframe,
                       JsParseFloat(f.cash).value, JsParseFloat(f.leverage).value))
  }

  /** The JSON body posted, as the endpoint reads it: the amounts are JavaScript numbers,
      so whole amounts arrive as integers. The dates are not part of this model. */
  function RequestBody(r: RunRequest): Json {
    JObj(map["strategy_id" := JStr(r.strategyId), "ticker" := JStr(r.ticker),
             "timeframe" := JStr(r.timeframe),
             "cash" := FromNumber(r.cash), "leverage" := FromNumber(r.leverage)])
  }

  /** What the page shows after the request: an error message, or the results. */
  datatype RunView = ShowError(message: Json) | ShowResults(data: Json)

  const UnknownError := "An unknown error occurred. Please try again."

  /** The reply: a 2xx body, or a failed request carrying the error response's body if
      there was one. A body with a truthy `error` is shown as that error. */
  function HandleReply(reply: Result<Json, Option<Json>>): (r: RunView)
    ensures reply.Ok? ==> (r.ShowError? <==> Has(reply.value, "error"))
    ensures reply.Ok? && r.ShowResults? ==> r.data == reply.value
    ensures reply.Err? ==> r.ShowError?
    ensures reply.Err? && (reply.error.None? || !Has(reply.error.value, "error")) ==> r == ShowError(JStr(UnknownError))
    ensures r.ShowError? ==> JsTruthy(r.message)
  {
    match reply
    case Ok(data) => if Has(data, "error") then ShowError(Field(data, "error").value) else ShowResults(data)
    case Err(body) =>
      var e := if body.Some? then Field(body.value, "error") else None;
      ShowError(Or(e, JStr(UnknownError)))
  }

  /** A row of the trade table as the page reads it. */
  datatype TradeRow = TradeRow(kind: string, pnl: Option<string>, exitReason: Option<string>)

  /** A completed trade: its Type mentions EXIT or MARGIN CALL. */
  predicate IsCompleted(kind: string) {
    Contains(kind, "EXIT") || Contains(kind, "MARGIN CALL")
  }

  predicate IsAmountChar(c: char) {
    IsDigit(c) || c == ','
  }

  /** The longest prefix of digits and commas: `[\d,]*`. */
  function AmountRun(s: string): (r: string)
    ensures |r| <= |s| && r == s[..|r|]
    ensures forall i :: 0 <= i < |r| ==> IsAmountChar(r[i])
    ensures |r| < |s| ==> !IsAmountChar(s[|r|])
  {
    if |s| > 0 && IsAmountChar(s[0]) then [s[0]] + AmountRun(s[1..]) else []
  }

  /** Text of the form `[\d,]*(\.\d*)?`: digits and commas, then at most one point,
      followed only by digits. */
  predicate AmountShape(m: string) {
    && (forall i :: 0 <= i < |m| ==> IsAmountChar(m[i]) || m[i] == '.')
    && (forall i, j :: 0 <= i < j < |m| && m[i] == '.' ==> IsDigit(m[j]))
  }

  /** The amount the pattern `[\d,]+\.?\d*` captures at the start of `s`, if any. */
  function AmountMatch(s: string): (r: Option<string>)
    ensures r.Some? ==> 0 < |r.value| <= |s| && r.value == s[..|r.value|]
  {
    var run := AmountRun(s);
    if run == [] then None
    else
      var rest := s[|run|..];
      if |rest| > 0 && rest[0] == '.' then
        var frac := TakeDigits(rest[1..]);
        var m := run + "." + frac;
        assert rest[..1 + |frac|] == "." + frac;
        assert s[..|m|] == s[..|run|] + rest[..1 + |frac|];
        Some(m)
      else Some(run)
  }

  /** The captures of `[\d,]+\.?\d*`: a match exactly when the text starts with a digit
      or a comma; the capture is digits and commas, then at most one point followed only
      by digits; and it stops only where the pattern cannot go on: before a non-digit,
      and, while it holds no point, before a character that is neither an amount
      character nor a point. */
  lemma AmountMatchCaptures(s: string)
    ensures AmountMatch(s).Some? <==> |s| > 0 && IsAmountChar(s[0])
    ensures AmountMatch(s).Some? ==> AmountShape(AmountMatch(s).value)
    ensures var r := AmountMatch(s); r.Some? && |r.value| < |s| ==> !IsDigit(s[|r.value|])
    ensures var r := AmountMatch(s);
            r.Some? && |r.value| < |s| && '.' !in r.value ==> !IsAmountChar(s[|r.value|]) && s[|r.value|] != '.'
  {
  }

  /** The P&L pattern `^([+-])\$([\d,]+\.?\d*)`: the sign and the captured amount. */
  function PnlMatch(p: string): (r: Option<(char, string)>)
    ensures r.Some? ==> |p| >= 3 && p[1] == '$' && r.value.0 == p[0] && (p[0] == '+' || p[0] == '-')
  {
    if |p| >= 2 && (p[0] == '+' || p[0] == '-') && p[1] == '$' then
      match AmountMatch(p[2..])
      case Some(a) => Some((p[0], a))
      case None => None
    else None
  }

  /** The P&L pattern matches exactly a sign, a '$' and an amount character, and captures
      the sign and what the amount pattern captures after the '$'. */
  lemma PnlMatchCaptures(p: string)
    ensures PnlMatch(p).Some? <==> |p| >= 3 && (p[0] == '+' || p[0] == '-') && p[1] == '$' && IsAmountChar(p[2])
    ensures PnlMatch(p).Some? ==> PnlMatch(p).value == (p[0], AmountMatch(p[2..]).value)
  {
    if |p| >= 3 {
      AmountMatchCaptures(p[2..]);
    }
  }

  /** A winning trade: a P&L other than the dash, matching the pattern with a plus
      sign and an amount that parses to more than zero. */
  predicate IsWin(pnl: Option<string>) {
    && pnl.Some? && pnl.value != "" && pnl.value != "—"
    && PnlMatch(pnl.value).Some?
    && PnlMatch(pnl.value).value.0 == '+'
    && var amount := JsParseFloat(RemoveCommas(PnlMatch(pnl.value).value.1));
       amount.Some? && amount.value > 0.0
  }

  /** Once the pattern has matched, a P&L is a win exactly for a plus sign and an
      amount that parses to more than zero. */
  lemma WinOfMatch(p: string, sign: char, a: string)
    requires p != "" && p != "—" && PnlMatch(p) == Some((sign, a))
    ensures IsWin(Some(p)) <==> sign == '+' && JsParseFloat(RemoveCommas(a)).Some? && JsParseFloat(RemoveCommas(a)).value > 0.0
  {
  }

  function CompletedCount(rows: seq<TradeRow>): (n: nat)
    ensures n <= |rows|
  {
    if |rows| == 0 then 0
    else CompletedCount(rows[..|rows| - 1]) + (if IsCompleted(rows[|rows| - 1].kind) then 1 else 0)
  }

  function WinCount(rows: seq<TradeRow>): (n: nat)
    ensures n <= CompletedCount(rows)
    ensures (forall k :: 0 <= k < |rows| && IsCompleted(rows[k].kind) ==> IsWin(rows[k].pnl)) ==> n == CompletedCount(rows)
  {
    if |rows| == 0 then 0
    else
      var last := rows[|rows| - 1];
      var init := rows[..|rows| - 1];
      var won := IsCompleted(last.kind) && IsWin(last.pnl);
      WinCount(init) + (if won then 1 else 0)
  }

  /** The counts add up over a split trade log, and a single row counts once when it
      is completed (and won), so they count the rows of each kind wherever they sit. */
  lemma {:induction false} CountsAppend(a: seq<TradeRow>, b: seq<TradeRow>)
    ensures CompletedCount(a + b) == CompletedCount(a) + CompletedCount(b)
    ensures WinCount(a + b) == WinCount(a) + WinCount(b)
    decreases |b|
  {
    if |b| == 0 {
      assert a + b == a;
    } else {
      var b' := b[..|b| - 1];
      assert (a + b)[..|a + b| - 1] == a + b';
      CountsAppend(a, b');
    }
  }

  lemma CountsOfRow(row: TradeRow)
    ensures CompletedCount([row]) == (if IsCompleted(row.kind) then 1 else 0)
    ensures WinCount([row]) == (if IsCompleted(row.kind) && IsWin(row.pnl) then 1 else 0)
  {
    assert [row][..0] == [];
  }

  /** `(wins / total) * 100`. */
  function Percent(wins: nat, total: nat): real
    requires 0 < total
  {
    wins as real / total as real * 100.0
  }

  lemma RoundedShare(wins: nat, total: nat)
    requires 0 < total && wins <= total
    ensures 0 <= JsRound(Percent(wins, total)) <= 100
    ensures wins == 0 ==> JsRound(Percent(wins, total)) == 0
    ensures wins == total ==> JsRound(Percent(wins, total)) == 100
  {
    ShareBounds(wins, total);
    if wins == total {
      assert JsRound(100.0) == 100;
    }
  }

  /** A share of a positive total lies between none and all of it. */
  lemma ShareBounds(wins: nat, total: nat)
    requires 0 < total && wins <= total
    ensures 0.0 <= wins as real / total as real <= 1.0
    ensures wins == total ==> wins as real / total as real == 1.0
  {
    var share := wins as real / total as real;
    assert share * total as real == wins as real;
  }

  /** `calculateWinRate`: the rounded percentage of completed trades that won; 0 with no
      trade log, an empty one, or no completed trade. */
  function WinRate(trades: Option<seq<TradeRow>>): (r: int)
    ensures 0 <= r <= 100
    ensures trades.None? || CompletedCount(trades.value) == 0 ==> r == 0
    ensures trades.Some? && CompletedCount(trades.value) > 0 && WinCount(trades.value) == 0 ==> r == 0
    ensures trades.Some? && CompletedCount(trades.value) > 0 && WinCount(trades.value) == CompletedCount(trades.value) ==> r == 100
    ensures trades.Some? && CompletedCount(trades.value) > 0
            ==> r == JsRound(Percent(WinCount(trades.value), CompletedCount(trades.value)))
  {
    if trades.None? then 0
    else if |trades.value| == 0 then
      assert CompletedCount(trades.value) == 0;
      0
    else
      var completed := CompletedCount(trades.value);
      var wins := WinCount(trades.value);
      if completed == 0 then 0
      else
        RoundedShare(wins, completed);
        JsRound(Percent(wins, completed))
  }

  /** The exit-reason column: entries are signal entries; an EXIT row shows its own
      `Exit Reason` or 'Signal Exit' (and 'Margin Call' if it also mentions a margin
      call); any other row shows nothing. */
  function ExitReasonLabel(row: TradeRow): string {
    if row.kind == "LONG" || row.kind == "SHORT" then "Signal Entry"
    else if Contains(row.kind, "EXIT") then
      if Contains(row.kind, "MARGIN CALL") then "Margin Call"
      else if row.exitReason.Some? && row.exitReason.value != "" then row.exitReason.value
      else "Signal Exit"
    else ""
  }

  /** The Type the backend writes for a logged trade. */
  function TypeLabel(t: Trade): string {
    match t.kind
    case Open => SideName(t.side)
    case Closed => "EXIT " + SideName(t.side)
    case MarginCall => "MARGIN CALL " + SideName(t.side)
  }

  /** The backend's trade types classify as the page expects: an opening trade is not
      completed, a close and a margin call are. */
  lemma TypeLabelCompleted(t: Trade)
    ensures IsCompleted(TypeLabel(t)) <==> t.kind != Open
  {
    var s := TypeLabel(t);
    match t.kind
    case Open =>
      MissingCharNotContained(s, "EXIT", 'X');
      MissingCharNotContained(s, "MARGIN CALL", 'M');
    case Closed =>
      assert OccursAt(s, "EXIT", 0);
    case MarginCall =>
      assert OccursAt(s, "MARGIN CALL", 0);
  }

  /** The labels the backend's rows receive: entries are signal entries, closes are
      signal exits (the backend writes no `Exit Reason`), and a margin-call row, whose
      Type has no EXIT in it, gets an empty label, so the 'Margin Call' label is never
      produced for it. */
  lemma BackendExitReasons(t: Trade, pnl: Option<string>)
    ensures t.kind == Open ==> ExitReasonLabel(TradeRow(TypeLabel(t), pnl, None)) == "Signal Entry"
    ensures t.kind == Closed ==> ExitReasonLabel(TradeRow(TypeLabel(t), pnl, None)) == "Signal Exit"
    ensures t.kind == MarginCall ==> ExitReasonLabel(TradeRow(TypeLabel(t), pnl, None)) == ""
  {
    var s := TypeLabel(t);
    match t.kind
    case Open =>
    case Closed =>
      assert OccursAt(s, "EXIT", 0);
      MissingCharNotContained(s, "MARGIN CALL", 'M');
    case MarginCall =>
      MissingCharNotContained(s, "EXIT", 'X');
  }

  lemma {:induction false} AlternatingCount(trades: seq<Trade>, rows: seq<TradeRow>)
    requires |rows| == |trades| && forall k :: 0 <= k < |rows| ==> rows[k].kind == TypeLabel(trades[k])
    requires forall k :: 0 <= k < |trades| ==> (trades[k].kind == Open <==> k % 2 == 0)
    ensures CompletedCount(rows) == |rows| / 2
    decreases |rows|
  {
    if |rows| > 0 {
      var n := |rows| - 1;
      AlternatingCount(trades[..n], rows[..n]);
      TypeLabelCompleted(trades[n]);
    }
  }

  /** For the trade log the simulator produces, the page counts exactly the closed
      positions as completed trades: half the log, rounded down. */
  lemma CompletedAreClosedPositions(trades: seq<Trade>, bars: nat, rows: seq<TradeRow>)
    requires TradeLogOk(trades, bars)
    requires |rows| == |trades| && forall k :: 0 <= k < |rows| ==> rows[k].kind == TypeLabel(trades[k])
    ensures CompletedCount(rows) == |trades| / 2
  {
    AlternatingCount(trades, rows);
  }

  predicate AmountChars(d: string) {
    forall i :: 0 <= i < |d| ==> IsAmountChar(d[i])
  }

  lemma {:induction false} AmountRunOfDigits(d: string, rest: string)
    requires AmountChars(d)
    requires rest == [] || !IsAmountChar(rest[0])
    ensures AmountRun(d + rest) == d
    decreases |d|
  {
    if |d| > 0 {
      assert (d + rest)[0] == d[0];
      assert (d + rest)[1..] == d[1..] + rest;
      assert AmountChars(d[1..]) by {
        forall i | 0 <= i < |d| - 1
          ensures IsAmountChar(d[1..][i])
        {
          assert d[1..][i] == d[i + 1];
        }
      }
      AmountRunOfDigits(d[1..], rest);
      assert [d[0]] + d[1..] == d;
    } else {
      assert d + rest == rest;
    }
  }

  /** The pattern captures exactly the digits of a whole-dollar amount. */
  lemma WholeDollarMatch(sign: char, d: string, rest: string)
    requires sign == '+' || sign == '-'
    requires |d| >= 1 && AllDigits(d)
    requires rest == [] || !(IsAmountChar(rest[0]) || rest[0] == '.')
    ensures PnlMatch([sign, '$'] + d + rest) == Some((sign, d))
  {
    var p := [sign, '$'] + d + rest;
    assert p[2..] == d + rest;
    assert AmountChars(d) by {
      forall i | 0 <= i < |d|
        ensures IsAmountChar(d[i])
      {
        assert IsDigit(d[i]);
      }
    }
    AmountRunOfDigits(d, rest);
    assert (d + rest)[|d|..] == rest;
  }

  /** `parseFloat` reads a digit string as the number it denotes. */
  lemma ParseDigits(d: string)
    requires |d| >= 1 && AllDigits(d)
    ensures JsParseFloat(RemoveCommas(d)).Some? && JsParseFloat(RemoveCommas(d)).value == DigitsValue(d) as real
  {
    assert RemoveCommas(d) == d;
    assert !IsSpace(d[0]);
    assert TrimStart(d) == d;
    ScanDigitsOnly(d);
  }

  /** A P&L of whole dollars reads as a win exactly when the sign is plus and the
      amount is not zero; a minus sign is never a win. */
  lemma WholeDollarWin(sign: char, n: nat, rest: string)
    requires sign == '+' || sign == '-'
    requires rest == [] || !(IsAmountChar(rest[0]) || rest[0] == '.')
    ensures IsWin(Some([sign, '$'] + NatToString(n) + rest)) <==> sign == '+' && n > 0
  {
    var d := NatToString(n);
    var p := [sign, '$'] + d + rest;
    WholeDollarMatch(sign, d, rest);
    ParseDigits(d);
    assert p != "—" by { assert p[1] == '$'; }
    WinOfMatch(p, sign, d);
  }

  /** The P&L text the backend writes, a sign, '$', `format(|pnl|, ',.2f')` and then
      nothing (a margin call) or " (±p%)", is captured whole: the grouped dollars, the
      point and the cents. */
  lemma MoneyMatch(sign: char, dollars: nat, cents: nat, rest: string)
    requires sign == '+' || sign == '-'
    requires cents < 100
    requires rest == [] || !IsDigit(rest[0])
    ensures PnlMatch([sign, '$'] + Money(dollars, cents) + rest) == Some((sign, Money(dollars, cents)))
  {
    var p := [sign, '$'] + Money(dollars, cents) + rest;
    assert p[2..] == Money(dollars, cents) + rest;
    MoneyAmountMatch(dollars, cents, rest);
  }

  lemma MoneyAmountMatch(dollars: nat, cents: nat, rest: string)
    requires cents < 100
    requires rest == [] || !IsDigit(rest[0])
    ensures AmountMatch(Money(dollars, cents) + rest) == Some(Money(dollars, cents))
  {
    var g := Grouped(dollars);
    assert AmountChars(g);
    PointAmountMatch(g, TwoDigits(cents), rest);
  }

  /** Amount characters, a point, digits and then a non-digit: the capture stops there. */
  lemma PointAmountMatch(g: string, f: string, rest: string)
    requires |g| > 0 && AmountChars(g) && AllDigits(f)
    requires rest == [] || !IsDigit(rest[0])
    ensures AmountMatch(g + "." + f + rest) == Some(g + "." + f)
  {
    var s := g + "." + f + rest;
    var tail := "." + f + rest;
    assert s == g + tail;
    AmountRunOfDigits(g, tail);
    var run := AmountRun(s);
    assert run == g;
    assert s[|run|..] == tail;
    assert tail[1..] == f + rest;
    TakeDigitsPrefix(f, rest);
  }

  /** The page reads the backend's P&L text as a win exactly when the sign is plus and
      at least one cent was gained: "+$0.00" and every "-$..." are not wins, and neither
      is the "N/A" of a trade without an entry price. */
  lemma MoneyWin(sign: char, dollars: nat, cents: nat, rest: string)
    requires sign == '+' || sign == '-'
    requires cents < 100
    requires rest == [] || !IsDigit(rest[0])
    ensures IsWin(Some([sign, '$'] + Money(dollars, cents) + rest)) <==> sign == '+' && (dollars > 0 || cents > 0)
    ensures !IsWin(Some("N/A"))
  {
    MoneyMatch(sign, dollars, cents, rest);
    MoneyAmount(dollars, cents);
    WinOfValue(sign, Money(dollars, cents), rest, dollars as real + cents as real / 100.0);
    PositiveAmount(dollars, cents);
    NotApplicableIsNoWin();
  }

  lemma PositiveAmount(dollars: nat, cents: nat)
    ensures dollars as real + cents as real / 100.0 > 0.0 <==> dollars > 0 || cents > 0
  {
  }

  /** `WinOfMatch` once the amount's value is known. */
  lemma WinOfValue(sign: char, a: string, rest: string, v: real)
    requires PnlMatch([sign, '$'] + a + rest) == Some((sign, a))
    requires JsParseFloat(RemoveCommas(a)).Some? && JsParseFloat(RemoveCommas(a)).value == v
    ensures IsWin(Some([sign, '$'] + a + rest)) <==> sign == '+' && v > 0.0
  {
    var p := [sign, '$'] + a + rest;
    assert p != "—" by { assert p[1] == '$'; }
    WinOfMatch(p, sign, a);
  }

  lemma NotApplicableIsNoWin()
    ensures !IsWin(Some("N/A"))
  {
    assert PnlMatch("N/A").None?;
  }
}
