/** The backtest endpoint: reading and checking the request, checking the fetched price
    table, classifying how much of the requested range it covers, running the engine,
    and keeping only the latest ten stored backtests per user. The database and the
    market-data fetch are parameters: the strategy lookup, the fetched table or the
    fetch error's text, and whether storing the new record succeeds. */
module BacktestView {
  import opened Wrappers
  import opened Text
  import opened Numbers
  import opened Json
  import opened Seqs
  import opened MarketData
  import opened StrategyValidation
  import opened Simulator
  import opened Backtest
  import opened FetchErrors
  import BacktestPage
  import opened BacktestRecord

  /** Why the endpoint answers with an error, one case per response it can give. */
  datatype ViewError =
    | Unexpected                          // 500 'Unexpected error: …'
    | MissingStrategyId                   // 400 'Strategy ID is required.'
    | CashNotPositive                     // 400 'Initial cash must be positive.'
    | LeverageOutOfRange                  // 400 'Leverage must be between 1x and 10x.'
    | MissingTicker                       // 400 'Ticker symbol is required.'
    | StrategyNotFound                    // 404 'Strategy not found.'
    | CloseColumnMissing                  // 400 "Data format error: 'Close' column not found. …"
    | ColumnsMissing(missing: seq<string>) // 400 'Missing required columns: …'
    | NoRows                              // 400 'No valid data found for …'
    | TooFewRows(count: nat)              // 400 'Insufficient data for …'
    | FetchRefused(verdict: FetchVerdict) // the fetch raised: see FetchErrors
    | BacktestFailed(failure: Failure)    // 400, the engine's own error result
    | BacktestRaised(error: RunError)     // 500 'An error occurred during the backtest: …'

  function Status(e: ViewError): int {
    match e
    case Unexpected => 500
    case StrategyNotFound => 404
    case FetchRefused(v) => if v == InvalidTicker then 400 else 500
    case BacktestRaised(_) => 500
    case _ => 400
  }

  /** The request fields the endpoint goes on with. */
  datatype Inputs = Inputs(strategyId: Json, ticker: string, cash: int, leverage: real)

  /** The request's `strategy_id`, `ticker` (default 'AAPL'), `cash` (default 10000,
      through `int`) and `leverage` (default 1.0, through `float`); None stands for a
      conversion that raises. */
  function StrategyIdOf(req: Json): Json { Get(req, "strategy_id").GetOr(JNull) }
  function TickerOf(req: Json): Json { Get(req, "ticker").GetOr(JStr("AAPL")) }
  function CashOf(req: Json): Option<int> { ToInt(Get(req, "cash").GetOr(JInt(10000))) }
  function LeverageOf(req: Json): Option<real> { ToFloat(Get(req, "leverage").GetOr(JFloat(1.0))) }

  /** The body is an object and both amounts convert. */
  predicate Readable(req: Json) {
    req.JObj? && CashOf(req).Some? && LeverageOf(req).Some?
  }

  /** The checks before the ticker's pass: a truthy strategy id, positive cash and a
      leverage within [1, 10]. */
  predicate AmountsOk(req: Json)
    requires Readable(req)
  {
    Truthy(StrategyIdOf(req)) && CashOf(req).value > 0 && 1.0 <= LeverageOf(req).value <= 10.0
  }

  /** `post` up to the database: read the fields (a body that is no object, or an amount
      that does not convert, is an unexpected error), then check them. */
  function ReadInputs(req: Json): (r: Result<Inputs, ViewError>)
    ensures !Readable(req) ==> r == Err(Unexpected)
    ensures r.Ok? <==> Readable(req) && AmountsOk(req) && TickerOk(TickerOf(req))
    ensures r.Ok? ==> && r.value.strategyId == StrategyIdOf(req)
                      && JStr(r.value.ticker) == TickerOf(req)
                      && Some(r.value.cash) == CashOf(req)
                      && Some(r.value.leverage) == LeverageOf(req)
    ensures r == Err(MissingStrategyId) <==> Readable(req) && !Truthy(StrategyIdOf(req))
    ensures r == Err(CashNotPositive)
        <==> Readable(req) && Truthy(StrategyIdOf(req)) && CashOf(req).value <= 0
    ensures r == Err(LeverageOutOfRange)
        <==> Readable(req) && Truthy(StrategyIdOf(req)) && CashOf(req).value > 0
             && !(1.0 <= LeverageOf(req).value <= 10.0)
    ensures r == Err(MissingTicker) <==> Readable(req) && AmountsOk(req) && TickerBlank(TickerOf(req))
    ensures Readable(req) && AmountsOk(req) && Truthy(TickerOf(req)) && !TickerOf(req).JStr?
            ==> r == Err(Unexpected)
  {
    if !Readable(req) then Err(Unexpected)
    else CheckInputs(StrategyIdOf(req), TickerOf(req), CashOf(req).value, LeverageOf(req).value)
  }

  /** A usable ticker: a string with something other than whitespace. */
  predicate TickerOk(ticker: Json) {
    Truthy(ticker) && ticker.JStr? && Trim(ticker.s) != ""
  }

  /** A ticker refused as missing: falsy, or a string of whitespace. */
  predicate TickerBlank(ticker: Json) {
    !Truthy(ticker) || (ticker.JStr? && Trim(ticker.s) == "")
  }

  /** The checks, in order: a truthy strategy id, positive cash, leverage within [1, 10],
      a non-blank ticker. A truthy ticker that is no string fails on `.strip()`. */
  function CheckInputs(sid: Json, ticker: Json, cash: int, leverage: real): (r: Result<Inputs, ViewError>)
    ensures r.Ok? <==> Truthy(sid) && cash > 0 && 1.0 <= leverage <= 10.0 && TickerOk(ticker)
    ensures r.Ok? ==> r.value == Inputs(sid, ticker.s, cash, leverage)
    ensures r == Err(MissingStrategyId) <==> !Truthy(sid)
    ensures r == Err(CashNotPositive) <==> Truthy(sid) && cash <= 0
    ensures r == Err(LeverageOutOfRange) <==> Truthy(sid) && cash > 0 && !(1.0 <= leverage <= 10.0)
    ensures r == Err(MissingTicker) <==> Truthy(sid) && cash > 0 && 1.0 <= leverage <= 10.0 && TickerBlank(ticker)
    ensures r == Err(Unexpected)
        <==> Truthy(sid) && cash > 0 && 1.0 <= leverage <= 10.0 && Truthy(ticker) && !ticker.JStr?
  {
    if !Truthy(sid) then Err(MissingStrategyId)
    else if cash <= 0 then Err(CashNotPositive)
    else if leverage < 1.0 || leverage > 10.0 then Err(LeverageOutOfRange)
    else if !Truthy(ticker) then Err(MissingTicker)
    else if !ticker.JStr? then Err(Unexpected)
    else if Trim(ticker.s) == "" then Err(MissingTicker)
    else Ok(Inputs(sid, ticker.s, cash, leverage))
  }

  /** A request without a strategy id is refused for it whenever the amounts convert. */
  lemma StrategyIdRequired(req: Json)
    requires req.JObj? && Get(req, "strategy_id").None?
    requires ToInt(Get(req, "cash").GetOr(JInt(10000))).Some?
    requires ToFloat(Get(req, "leverage").GetOr(JFloat(1.0))).Some?
    ensures ReadInputs(req) == Err(MissingStrategyId)
  {
  }

  /** A request naming only a strategy backtests AAPL with 10000 of cash at 1x. */
  lemma RequestDefaults(req: Json)
    requires Truthy(Get(req, "strategy_id").GetOr(JNull))
    requires Get(req, "cash").None? && Get(req, "leverage").None? && Get(req, "ticker").None?
    ensures ReadInputs(req).Ok?
    ensures ReadInputs(req).value.ticker == "AAPL"
    ensures ReadInputs(req).value.cash == 10000 && ReadInputs(req).value.leverage == 1.0
    ensures Some(ReadInputs(req).value.strategyId) == Get(req, "strategy_id")
  {
    DefaultTickerTrimmed();
    DefaultAmounts(req);
  }

  lemma DefaultAmounts(req: Json)
    requires Get(req, "cash").None? && Get(req, "leverage").None?
    ensures ToInt(Get(req, "cash").GetOr(JInt(10000))) == Some(10000)
    ensures ToFloat(Get(req, "leverage").GetOr(JFloat(1.0))) == Some(1.0)
  {
  }

  lemma DefaultTickerTrimmed()
    ensures Trim("AAPL") == "AAPL"
  {
    TrimUnchanged("AAPL");
  }

  const RequiredColumns: seq<string> := ["Open", "High", "Low", "Close", "Volume"]

  function MissingColumn(f: Frame): string -> bool {
    (c: string) => c !in f.columns
  }

  /** The checks on the fetched table, in order: a `Close` column, then the other price
      and volume columns, then at least one row, then at least 30. */
  function CheckData(f: Frame): (r: Outcome<ViewError>)
    ensures r == Pass <==> (forall c :: c in RequiredColumns ==> c in f.columns) && |f.bars| >= 30
    ensures r == Fail(NoRows) <==> (forall c :: c in RequiredColumns ==> c in f.columns) && |f.bars| == 0
    ensures r.Fail? && r.error.ColumnsMissing? ==> |r.error.missing| > 0 && "Close" !in r.error.missing
    ensures r.Fail? && r.error.TooFewRows? ==> 0 < r.error.count < 30
  {
    var missing := Filter(RequiredColumns, MissingColumn(f));
    if "Close" !in f.columns then Fail(CloseColumnMissing)
    else if |missing| > 0 then Fail(ColumnsMissing(missing))
    else if |f.bars| == 0 then Fail(NoRows)
    else if |f.bars| < 30 then Fail(TooFewRows(|f.bars|))
    else
      assert forall k :: 0 <= k < |RequiredColumns| ==> RequiredColumns[k] in f.columns;
      Pass
  }

  /** The verdict on how much of the requested range the data covers. */
  datatype RangeVerdict = NoOverlapWarning | LimitedWarning | FullRange | PartialRange

  /** Days shared by the requested range and the data's range, never negative. Dates
      are day numbers. */
  function OverlapDays(reqStart: int, reqEnd: int, actStart: int, actEnd: int): (r: int)
    ensures r >= 0
    ensures r <= if reqEnd - reqStart > 0 then reqEnd - reqStart else 0
    ensures actStart <= reqStart && reqEnd <= actEnd && reqStart <= reqEnd ==> r == reqEnd - reqStart
  {
    var lo := if reqStart >= actStart then reqStart else actStart;
    var hi := if reqEnd <= actEnd then reqEnd else actEnd;
    if hi - lo > 0 then hi - lo else 0
  }

  /** The share of the requested days the data covers; 0 for an empty or reversed
      request. */
  function CoverageShare(reqStart: int, reqEnd: int, actStart: int, actEnd: int): (r: real)
    ensures 0.0 <= r <= 1.0
  {
    var requested := reqEnd - reqStart;
    if requested > 0 then OverlapDays(reqStart, reqEnd, actStart, actEnd) as real / requested as real else 0.0
  }

  /** The classification: a warning when less than half the requested days overlap or
      the coverage is under 80% (worded for no overlap at all when nothing overlaps);
      otherwise a full range from 95% on, a partial one below. */
  function ClassifyRange(reqStart: int, reqEnd: int, actStart: int, actEnd: int): RangeVerdict {
    var requested := reqEnd - reqStart;
    var overlap := OverlapDays(reqStart, reqEnd, actStart, actEnd);
    var coverage := CoverageShare(reqStart, reqEnd, actStart, actEnd);
    if (overlap as real) < (requested as real) * 0.5 || coverage < 0.8 then
      if overlap == 0 then NoOverlapWarning else LimitedWarning
    else if coverage >= 0.95 then FullRange
    else PartialRange
  }

  /** The half-overlap test never decides anything: a warning is given exactly when the
      coverage is under 80%. Full means at least 95%, partial between 80% and 95%, and
      the no-overlap wording is used exactly for warnings with nothing shared. */
  lemma ClassificationByCoverage(reqStart: int, reqEnd: int, actStart: int, actEnd: int)
    ensures var v := ClassifyRange(reqStart, reqEnd, actStart, actEnd);
            var c := CoverageShare(reqStart, reqEnd, actStart, actEnd);
            && ((v == NoOverlapWarning || v == LimitedWarning) <==> c < 0.8)
            && (v == FullRange <==> c >= 0.95)
            && (v == PartialRange <==> 0.8 <= c < 0.95)
            && (v == NoOverlapWarning <==> c < 0.8 && OverlapDays(reqStart, reqEnd, actStart, actEnd) == 0)
  {
    var requested := reqEnd - reqStart;
    var overlap := OverlapDays(reqStart, reqEnd, actStart, actEnd);
    if requested > 0 && (overlap as real) < (requested as real) * 0.5 {
      BelowHalf(overlap as real, requested as real);
    }
  }

  lemma BelowHalf(o: real, r: real)
    requires r > 0.0 && o < r * 0.5
    ensures o / r < 0.5
  {
    var c := o / r;
    assert c * r == o;
  }

  /** A request with no days, or reversed, is always a warning; data spanning the whole
      requested range is always a full range. */
  lemma ClassificationEdges(reqStart: int, reqEnd: int, actStart: int, actEnd: int)
    ensures reqEnd <= reqStart ==> ClassifyRange(reqStart, reqEnd, actStart, actEnd) == NoOverlapWarning
    ensures reqStart < reqEnd && actStart <= reqStart && reqEnd <= actEnd ==> ClassifyRange(reqStart, reqEnd, actStart, actEnd) == FullRange
  {
    ClassificationByCoverage(reqStart, reqEnd, actStart, actEnd);
    if reqStart < reqEnd && actStart <= reqStart && reqEnd <= actEnd {
      var requested := reqEnd - reqStart;
      assert OverlapDays(reqStart, reqEnd, actStart, actEnd) == requested;
      assert CoverageShare(reqStart, reqEnd, actStart, actEnd) == 1.0;
    }
  }

  /** The first of the earliest-created records: `order_by('created_at').first()`. */
  function OldestIndex(s: seq<StoredBacktest>): (i: nat)
    requires |s| > 0
    ensures i < |s|
    ensures forall k :: 0 <= k < |s| ==> s[i].createdAt <= s[k].createdAt
    ensures forall k :: 0 <= k < i ==> s[k].createdAt > s[i].createdAt
  {
    if |s| == 1 then 0
    else
      var j := OldestIndex(s[..|s| - 1]);
      if s[|s| - 1].createdAt < s[j].createdAt then |s| - 1 else j
  }

  const MaxStored := 10

  /** Before storing a new backtest, the oldest one goes when the user already has ten
      or more; the new one is added only when its creation succeeds. Nothing else
      changes: below ten every stored backtest is kept, from ten on exactly one
      earliest-created one goes, and the new one comes last. */
  function Retain(stored: seq<StoredBacktest>, added: StoredBacktest, created: bool): (r: seq<StoredBacktest>)
    ensures |stored| <= MaxStored ==> |r| <= MaxStored
    ensures |r| == (if |stored| >= MaxStored then |stored| - 1 else |stored|) + (if created then 1 else 0)
    ensures created ==> r[|r| - 1] == added
    ensures |stored| < MaxStored ==> multiset(r) == multiset(stored) + (if created then multiset{added} else multiset{})
    ensures |stored| >= MaxStored ==>
              exists oldest :: && oldest in stored
                               && (forall k :: 0 <= k < |stored| ==> oldest.createdAt <= stored[k].createdAt)
                               && multiset(r) == multiset(stored) - multiset{oldest}
                                                 + (if created then multiset{added} else multiset{})
  {
    var kept :=
      if |stored| >= MaxStored then
        var i := OldestIndex(stored);
        assert stored == stored[..i] + [stored[i]] + stored[i + 1..];
        assert multiset(stored[..i] + stored[i + 1..]) == multiset(stored) - multiset{stored[i]};
        stored[..i] + stored[i + 1..]
      else stored;
    kept + (if created then [added] else [])
  }

  /** Storing keeps the count of a user's backtests at most ten, once it is. */
  lemma {:induction false} RetentionBound(stored: seq<StoredBacktest>, added: seq<StoredBacktest>, created: seq<bool>)
    requires |stored| <= MaxStored && |created| == |added|
    ensures |RetainAll(stored, added, created)| <= MaxStored
    decreases |added|
  {
    if |added| > 0 {
      RetentionBound(Retain(stored, added[0], created[0]), added[1..], created[1..]);
    }
  }

  /** A run of saves, one after the other. */
  function RetainAll(stored: seq<StoredBacktest>, added: seq<StoredBacktest>, created: seq<bool>): seq<StoredBacktest>
    requires |created| == |added|
    decreases |added|
  {
    if |added| == 0 then stored else RetainAll(Retain(stored, added[0], created[0]), added[1..], created[1..])
  }

  /** The response body: an error, or the engine's results. */
  datatype Answer = Answer(status: int, body: Result<Report, ViewError>)

  /** The world the endpoint runs in: the user's strategy with the requested id, if any;
      the fetched table or the fetch error's text; the table with indicators added; the
      user's stored backtests; the id and creation time the database gives a new
      record, the final equity and return as formatted text, and whether creating the
      record succeeds. */
  datatype World = World(
    strategy: Option<Json>, fetched: Result<Frame, string>, enriched: Frame,
    stored: seq<StoredBacktest>, newId: nat, now: int, equityText: string, returnText: string,
    created: bool)

  function Refuse(e: ViewError): Answer {
    Answer(Status(e), Err(e))
  }

  /** The record created for a completed backtest. */
  function NewRecord(w: World, report: Report): StoredBacktest {
    StoredBacktest(w.newId, w.now, CompletedResults(report, w.equityText, w.returnText))
  }

  /** `BacktestView.post` up to the answer: the request checks, the strategy lookup, the
      fetch, the data checks and the engine, the first failure ending it. */
  function Pipeline(req: Json, w: World): Result<Report, ViewError> {
    match ReadInputs(req)
    case Err(e) => Err(e)
    case Ok(inputs) => AfterInputs(inputs, w)
  }

  /** The strategy lookup, the data fetch and the checks of the table. */
  function AfterInputs(inputs: Inputs, w: World): Result<Report, ViewError> {
    if w.strategy.None? then Err(StrategyNotFound)
    else match w.fetched
      case Err(message) => Err(FetchRefused(FetchError(message)))
      case Ok(data) =>
        match CheckData(data)
        case Fail(e) => Err(e)
        case Pass => Execute(data, inputs, w)
  }

  /** The engine's run on checked data. */
  function Execute(data: Frame, inputs: Inputs, w: World): Result<Report, ViewError>
    requires w.strategy.Some?
  {
    match RunBacktest(data, w.enriched, w.strategy.value, inputs.cash as real, inputs.leverage)
    case Err(e) => Err(BacktestRaised(e))
    case Ok(Errored(failure)) => Err(BacktestFailed(failure))
    case Ok(Completed(report)) => Ok(report)
  }

  /** `BacktestView.post`: the answer and the stored backtests afterwards; only a
      completed backtest touches the store. */
  function Post(req: Json, w: World): (r: (Answer, seq<StoredBacktest>))
    ensures r.0.status == 200 <==> r.0.body.Ok?
    ensures r.0.body.Err? ==> r.0.status == Status(r.0.body.error) && r.1 == w.stored
    ensures r.0.status == 200 ==> r.1 == Retain(w.stored, NewRecord(w, r.0.body.value), w.created)
  {
    match Pipeline(req, w)
    case Err(e) => (Refuse(e), w.stored)
    case Ok(report) => (Answer(200, Ok(report)), Retain(w.stored, NewRecord(w, report), w.created))
  }

  /** A successful answer means every check passed and the strategy is well formed;
      the user then keeps at most ten stored backtests if they had at most ten. */
  lemma SuccessMeansChecked(req: Json, w: World)
    requires Post(req, w).0.status == 200
    ensures ReadInputs(req).Ok? && w.strategy.Some? && w.fetched.Ok?
    ensures CheckData(w.fetched.value) == Pass && WellFormed(w.strategy.value)
    ensures |w.stored| <= MaxStored ==> |Post(req, w).1| <= MaxStored
  {
    PipelineOk(req, w);
  }

  /** A report comes only from checked inputs and data and a well-formed strategy, and it
      counts its own trades. */
  lemma PipelineOk(req: Json, w: World)
    requires Pipeline(req, w).Ok?
    ensures ReadInputs(req).Ok? && w.strategy.Some? && w.fetched.Ok?
    ensures CheckData(w.fetched.value) == Pass && WellFormed(w.strategy.value)
    ensures Pipeline(req, w).value.tradeCount == |Pipeline(req, w).value.trades|
  {
    assert ReadInputs(req).Ok?;
    var inputs := ReadInputs(req).value;
    assert AfterInputs(inputs, w) == Pipeline(req, w);
    assert w.strategy.Some? && w.fetched.Ok?;
    var data := w.fetched.value;
    assert CheckData(data) == Pass;
    assert AfterInputs(inputs, w) == Execute(data, inputs, w);
    ExecuteOk(data, inputs, w);
  }

  lemma ExecuteOk(data: Frame, inputs: Inputs, w: World)
    requires w.strategy.Some? && Execute(data, inputs, w).Ok?
    ensures WellFormed(w.strategy.value)
    ensures Execute(data, inputs, w).value.tradeCount == |Execute(data, inputs, w).value.trades|
  {
  }

  /** After a successful run whose record was created, the user's newest stored
      backtest reads back the number of trades the answer reports. */
  lemma SavedRecordReadsBack(req: Json, w: World)
    requires Post(req, w).0.status == 200 && w.created
    ensures var stored := Post(req, w).1;
            && |stored| > 0
            && TradeCount(stored[|stored| - 1]) == Some(JInt(Post(req, w).0.body.value.tradeCount))
  {
    var report := Post(req, w).0.body.value;
    assert report == Pipeline(req, w).value;
    PipelineOk(req, w);
    CompletedRoundTrip(w.newId, w.now, report, w.equityText, w.returnText);
  }

  /** Whether storing the new record succeeds never changes the answer. */
  lemma AnswerIgnoresSaveFailure(req: Json, w: World)
    ensures Post(req, w).0 == Post(req, w.(created := !w.created)).0
  {
    var w' := w.(created := !w.created);
    match ReadInputs(req)
    case Err(_) =>
    case Ok(inputs) =>
      assert Pipeline(req, w) == AfterInputs(inputs, w);
      assert Pipeline(req, w') == AfterInputs(inputs, w');
      AfterInputsIgnoresSave(inputs, w);
  }

  lemma AfterInputsIgnoresSave(inputs: Inputs, w: World)
    ensures AfterInputs(inputs, w) == AfterInputs(inputs, w.(created := !w.created))
  {
    var w' := w.(created := !w.created);
    if w.strategy.Some? && w.fetched.Ok? {
      assert Execute(w.fetched.value, inputs, w) == Execute(w.fetched.value, inputs, w');
    }
  }

  /** Past the checks, the engine can only raise over the configuration: the table is
      not empty and the cash is positive by then. */
  lemma OnlyConfigurationRaises(req: Json, w: World)
    requires Post(req, w).0.body.Err? && Post(req, w).0.body.error.BacktestRaised?
    ensures Post(req, w).0.body.error.error.InvalidConfig?
  {
    assert Post(req, w).0.body == Pipeline(req, w);
    PipelineRaisesOnConfiguration(req, w);
  }

  lemma PipelineRaisesOnConfiguration(req: Json, w: World)
    requires Pipeline(req, w).Err? && Pipeline(req, w).error.BacktestRaised?
    ensures Pipeline(req, w).error.error.InvalidConfig?
  {
    assert ReadInputs(req).Ok?;
    var inputs := ReadInputs(req).value;
    assert AfterInputs(inputs, w) == Pipeline(req, w);
    assert w.strategy.Some? && w.fetched.Ok?;
    var data := w.fetched.value;
    assert CheckData(data) == Pass;
    assert AfterInputs(inputs, w) == Execute(data, inputs, w);
    ExecuteRaisesOnConfiguration(data, inputs, w);
  }

  lemma ExecuteRaisesOnConfiguration(data: Frame, inputs: Inputs, w: World)
    requires w.strategy.Some? && CheckData(data) == Pass && inputs.cash > 0
    ensures Execute(data, inputs, w).Err? && Execute(data, inputs, w).error.BacktestRaised? ==>
              Execute(data, inputs, w).error.error.InvalidConfig?
  {
  }

  /** A whole or fractional amount after `int`: truncated toward zero. */
  lemma CashAfterInt(x: real)
    requires x > 0.0
    ensures ToInt(FromNumber(x)).Some?
    ensures ToInt(FromNumber(x)).value > 0 <==> x >= 1.0
  {
  }

  /** A ticker the page accepted is still non-blank after the endpoint trims it. */
  lemma PageTickerNotBlank(t: string)
    requires Trim(t) != ""
    ensures Trim(Upper(Trim(t))) != ""
  {
    TrimIdempotent(t);
    UpperKeepsNonBlank(Trim(t));
  }

  /** A request the page lets through passes the endpoint's own request checks exactly
      when its starting capital is at least 1: the endpoint reads the amount through
      `int`, so a capital the page accepts, such as 0.5, arrives as 0 and is refused. */
  lemma PageRequestAccepted(f: BacktestPage.RunForm)
    requires BacktestPage.ValidateRun(f).Ok?
    ensures var r := BacktestPage.ValidateRun(f).value;
            var answer := ReadInputs(BacktestPage.RequestBody(r));
            && (answer.Ok? <==> r.cash >= 1.0)
            && (answer.Err? ==> answer.error == CashNotPositive)
            && (answer.Ok? ==> answer.value.ticker == r.ticker && answer.value.leverage == r.leverage)
  {
    var r := BacktestPage.ValidateRun(f).value;
    PageTickerNotBlank(f.ticker);
    PageBodyRead(r);
  }

  /** How the endpoint reads a body the page built from checked values. */
  lemma PageBodyRead(r: BacktestPage.RunRequest)
    requires r.strategyId != "" && Trim(r.ticker) != "" && r.cash > 0.0 && 1.0 <= r.leverage <= 10.0
    ensures var answer := ReadInputs(BacktestPage.RequestBody(r));
            && (answer.Ok? <==> r.cash >= 1.0)
            && (answer.Err? ==> answer.error == CashNotPositive)
            && (answer.Ok? ==> answer.value.ticker == r.ticker && answer.value.leverage == r.leverage)
  {
    PageBodyFields(r);
    CashAfterInt(r.cash);
  }

  lemma PageBodyFields(r: BacktestPage.RunRequest)
    ensures var body := BacktestPage.RequestBody(r);
            && Get(body, "cash") == Some(FromNumber(r.cash))
            && Get(body, "leverage") == Some(FromNumber(r.leverage))
            && Get(body, "ticker") == Some(JStr(r.ticker))
            && Get(body, "strategy_id") == Some(JStr(r.strategyId))
  {
  }
}
