/** A stored backtest: the results the engine returned, kept as JSON, with accessors
    for the figures the dashboard lists, and the most-recent-first order in which a
    user's backtests are listed. */
module BacktestRecord {
  import opened Wrappers
  import opened Text
  import opened Json
  import opened Simulator

  /** A stored backtest: its id, its creation time and its results. */
  datatype StoredBacktest = StoredBacktest(id: nat, createdAt: int, results: Json)

  /** `results['stats'].get(key, default)` guarded by `results and 'stats' in results`.
      None stands for the exception Python raises: `in` on a truthy number or boolean,
      indexing a list or string that contains 'stats', or `.get` on stats that are not
      a dictionary. */
  function Stat(results: Json, key: string, default: Json): (r: Option<Json>)
    ensures results.JObj? && "stats" in results.fields && results.fields["stats"].JObj? ==>
              r == Some(if key in results.fields["stats"].fields then results.fields["stats"].fields[key] else default)
    ensures !Truthy(results) || (results.JObj? && "stats" !in results.fields) ==> r == Some(default)
    ensures r.None? <==> || (Truthy(results) && !results.JObj? && !results.JArr? && !results.JStr?)
                         || (results.JObj? && "stats" in results.fields && !results.fields["stats"].JObj?)
                         || (results.JArr? && JStr("stats") in results.items)
                         || (results.JStr? && Contains(results.s, "stats"))
  {
    if !Truthy(results) then Some(default)
    else match results
      case JObj(fields) =>
        if "stats" !in fields then Some(default)
        else (match fields["stats"]
          case JObj(stats) => Some(if key in stats then stats[key] else default)
          case _ => None)
      case JArr(items) => if JStr("stats") in items then None else Some(default)
      case JStr(s) => if Contains(s, "stats") then None else Some(default)
      case _ => None
  }

  /** `get_pnl`: the return in percent, or 'N/A'. */
  function Pnl(b: StoredBacktest): Option<Json> {
    Stat(b.results, "Return [%]", JStr("N/A"))
  }

  /** `get_trade_count`: the number of trades, or 0. */
  function TradeCount(b: StoredBacktest): Option<Json> {
    Stat(b.results, "# Trades", JInt(0))
  }

  /** `get_final_equity`: the final equity, or 'N/A'. */
  function FinalEquity(b: StoredBacktest): Option<Json> {
    Stat(b.results, "Equity Final [$]", JStr("N/A"))
  }

  /** The results of a completed backtest as stored: the statistics with the final equity
      and the return as formatted text (the number formatting is not part of this
      model) and the trade count as a number. The equity curve and the trade log are
      not read back here. */
  function CompletedResults(report: Report, equityText: string, returnText: string): Json {
    JObj(map["stats" := JObj(map["Equity Final [$]" := JStr(equityText), "Return [%]" := JStr(returnText),
                                 "# Trades" := JInt(|report.trades|)])])
  }

  /** The results of a failed backtest: an error and empty statistics. */
  function FailedResults(message: string): Json {
    JObj(map["error" := JStr(message), "stats" := JObj(map[])])
  }

  /** The accessors read back what a completed backtest stored: the return, the final
      equity and the length of the trade log, which the engine also reports as its
      trade count. */
  lemma CompletedRoundTrip(id: nat, at: int, report: Report, equityText: string, returnText: string)
    requires report.tradeCount == |report.trades|
    ensures var b := StoredBacktest(id, at, CompletedResults(report, equityText, returnText));
            && Pnl(b) == Some(JStr(returnText))
            && FinalEquity(b) == Some(JStr(equityText))
            && TradeCount(b) == Some(JInt(report.tradeCount))
  {
  }

  /** A failed backtest's empty statistics read as 'N/A', 0 and 'N/A', as do results
      without statistics. */
  lemma FailedDefaults(id: nat, at: int, message: string)
    ensures var b := StoredBacktest(id, at, FailedResults(message));
            Pnl(b) == Some(JStr("N/A")) && TradeCount(b) == Some(JInt(0)) && FinalEquity(b) == Some(JStr("N/A"))
    ensures var b := StoredBacktest(id, at, JObj(map[]));
            Pnl(b) == Some(JStr("N/A")) && TradeCount(b) == Some(JInt(0)) && FinalEquity(b) == Some(JStr("N/A"))
  {
  }

  /** `ordering = ['-created_at']`: most recent first. */
  predicate NewestFirst(s: seq<StoredBacktest>) {
    forall i, j :: 0 <= i < j < |s| ==> s[i].createdAt >= s[j].createdAt
  }

  /** Puts `b` before the first record that is not newer than it. */
  function Insert(s: seq<StoredBacktest>, b: StoredBacktest): (r: seq<StoredBacktest>)
    ensures |r| == |s| + 1
    ensures multiset(r) == multiset(s) + multiset{b}
  {
    if |s| == 0 then [b]
    else if b.createdAt >= s[0].createdAt then [b] + s
    else
      assert s == [s[0]] + s[1..];
      [s[0]] + Insert(s[1..], b)
  }

  /** The first record after an insertion is the inserted one or the former first. */
  lemma InsertHead(s: seq<StoredBacktest>, b: StoredBacktest)
    ensures Insert(s, b)[0] == b || (|s| > 0 && Insert(s, b)[0] == s[0])
  {
  }

  /** Insertion keeps a listing in order. */
  lemma {:induction false} InsertSorted(s: seq<StoredBacktest>, b: StoredBacktest)
    requires NewestFirst(s)
    ensures NewestFirst(Insert(s, b))
    decreases |s|
  {
    if |s| > 0 && b.createdAt < s[0].createdAt {
      var rest := Insert(s[1..], b);
      InsertSorted(s[1..], b);
      InsertHead(s[1..], b);
      var r := [s[0]] + rest;
      forall i, j | 0 <= i < j < |r|
        ensures r[i].createdAt >= r[j].createdAt
      {
        if i == 0 {
          assert r[j].createdAt <= rest[0].createdAt;
        }
      }
    }
  }

  /** A user's backtests as listed: most recent first. */
  function Listing(s: seq<StoredBacktest>): (r: seq<StoredBacktest>)
    ensures NewestFirst(r)
    ensures multiset(r) == multiset(s)
  {
    if |s| == 0 then []
    else
      assert s == [s[0]] + s[1..];
      InsertSorted(Listing(s[1..]), s[0]);
      Insert(Listing(s[1..]), s[0])
  }

  /** In the listing the newest backtest comes first and the oldest last. */
  lemma ListingEnds(s: seq<StoredBacktest>)
    requires |s| > 0
    ensures var l := Listing(s);
            && |l| == |s|
            && (forall k :: 0 <= k < |s| ==> l[0].createdAt >= s[k].createdAt && s[k].createdAt >= l[|l| - 1].createdAt)
  {
    OrderedEnds(s, Listing(s));
  }

  /** Any newest-first arrangement of `s` starts with its newest and ends with its oldest. */
  lemma OrderedEnds(s: seq<StoredBacktest>, l: seq<StoredBacktest>)
    requires |s| > 0 && multiset(l) == multiset(s) && NewestFirst(l)
    ensures |l| == |s|
    ensures forall k :: 0 <= k < |s| ==> l[0].createdAt >= s[k].createdAt && s[k].createdAt >= l[|l| - 1].createdAt
  {
    assert |multiset(l)| == |multiset(s)|;
    forall k | 0 <= k < |s|
      ensures l[0].createdAt >= s[k].createdAt >= l[|l| - 1].createdAt
    {
      ListedSomewhere(s, l, k);
    }
  }

  lemma ListedSomewhere(s: seq<StoredBacktest>, l: seq<StoredBacktest>, k: nat)
    requires k < |s| && multiset(l) == multiset(s) && NewestFirst(l)
    ensures |l| > 0 && l[0].createdAt >= s[k].createdAt >= l[|l| - 1].createdAt
  {
    assert s[k] in multiset(s);
    assert s[k] in l;
    var j :| 0 <= j < |l| && l[j] == s[k];
    assert j == 0 || l[0].createdAt >= l[j].createdAt;
    assert j == |l| - 1 || l[j].createdAt >= l[|l| - 1].createdAt;
  }
}
