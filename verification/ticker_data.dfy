/** The static ticker table of the backtest page, with lookup by category and
    free-text search. */
module TickerData {
  import opened Wrappers
  import opened Text
  import opened Seqs

  datatype TickerOption = TickerOption(
    symbol: string, name: string, category: string, currentPrice: string, description: Option<string>)

  /** The table, in its three blocks: the top five stocks, the top five currency pairs
      and the top three cryptocurrencies. */
  const TickerOptions: seq<TickerOption> := StockOptions + ForexOptions + CryptoOptions

  const StockOptions: seq<TickerOption> := [
    TickerOption("AAPL", "Apple Inc.", "Stocks", "$185.64", Some("Consumer electronics and software")),
    TickerOption("TSLA", "Tesla Inc.", "Stocks", "$248.50", Some("Electric vehicles and clean energy")),
    TickerOption("SPY", "SPDR S&P 500 ETF", "Stocks", "$468.25", Some("S&P 500 index fund")),
    TickerOption("AMD", "Advanced Micro Devices", "Stocks", "$142.80", Some("Semiconductor manufacturing")),
    TickerOption("NVDA", "NVIDIA Corporation", "Stocks", "$875.28", Some("Graphics processing and AI"))
  ]

  const ForexOptions: seq<TickerOption> := [
    TickerOption("EURUSD", "Euro / US Dollar", "Forex", "1.0895", Some("Most traded currency pair")),
    TickerOption("USDJPY", "US Dollar / Japanese Yen", "Forex", "148.25", Some("Major currency pair")),
    TickerOption("GBPUSD", "British Pound / US Dollar", "Forex", "1.2650", Some("Cable currency pair")),
    TickerOption("USDCHF", "US Dollar / Swiss Franc", "Forex", "0.8645", Some("Safe haven currency pair")),
    TickerOption("AUDUSD", "Australian Dollar / US Dollar", "Forex", "0.6580", Some("Commodity currency pair"))
  ]

  const CryptoOptions: seq<TickerOption> := [
    TickerOption("BTCUSD", "Bitcoin", "Crypto", "$43,250", Some("Digital gold, first cryptocurrency")),
    TickerOption("ETHUSD", "Ethereum", "Crypto", "$2,680", Some("Smart contract platform")),
    TickerOption("SOLUSD", "Solana", "Crypto", "$98.45", Some("High-performance blockchain"))
  ]

  const Categories: seq<string> := ["Stocks", "Forex", "Crypto"]

  function CategoryIs(category: string): TickerOption -> bool {
    (t: TickerOption) => t.category == category
  }

  /** The options of `table` of that category, in table order. */
  function InCategory(table: seq<TickerOption>, category: string): (r: seq<TickerOption>)
    ensures IsSubsequence(r, table)
    ensures forall k :: 0 <= k < |r| ==> r[k].category == category
    ensures forall k :: 0 <= k < |table| && table[k].category == category ==> table[k] in r
  {
    FilterIsSubsequence(table, CategoryIs(category));
    Filter(table, CategoryIs(category))
  }

  /** `getTickersByCategory`. */
  function TickersByCategory(category: string): seq<TickerOption> {
    InCategory(TickerOptions, category)
  }

  /** A case-insensitive substring of the symbol, the name or the description. */
  predicate Matches(t: TickerOption, query: string) {
    var q := Lower(query);
    Contains(Lower(t.symbol), q) || Contains(Lower(t.name), q)
    || (t.description.Some? && Contains(Lower(t.description.value), q))
  }

  function MatchesQuery(query: string): TickerOption -> bool {
    (t: TickerOption) => Matches(t, query)
  }

  /** The options of `table` matching the query, in table order. */
  function Search(table: seq<TickerOption>, query: string): (r: seq<TickerOption>)
    ensures IsSubsequence(r, table)
    ensures forall k :: 0 <= k < |r| ==> Matches(r[k], query)
    ensures forall k :: 0 <= k < |table| && Matches(table[k], query) ==> table[k] in r
  {
    FilterIsSubsequence(table, MatchesQuery(query));
    Filter(table, MatchesQuery(query))
  }

  /** `searchTickers`. */
  function SearchTickers(query: string): seq<TickerOption> {
    Search(TickerOptions, query)
  }

  /** Every string contains the empty string, so the empty query lists the whole table. */
  lemma EmptyQueryListsAll(table: seq<TickerOption>)
    ensures Search(table, "") == table
  {
    forall k | 0 <= k < |table|
      ensures Matches(table[k], "")
    {
      assert OccursAt(Lower(table[k].symbol), "", 0);
    }
    FilterAll(table, MatchesQuery(""));
  }

  lemma LowerUpper(s: string)
    ensures Lower(Upper(s)) == Lower(s)
  {
  }

  /** The search ignores the case of the query. */
  lemma SearchIgnoresCase(table: seq<TickerOption>, query: string)
    ensures Search(table, Upper(query)) == Search(table, query)
  {
    LowerUpper(query);
    FilterCongruent(table, MatchesQuery(Upper(query)), MatchesQuery(query));
  }

  /** No two options of the table share a symbol. */
  lemma SymbolsUnique()
    ensures forall i, j :: 0 <= i < j < |TickerOptions| ==> TickerOptions[i].symbol != TickerOptions[j].symbol
  {
  }

  lemma NoneSelected(s: seq<TickerOption>, p: TickerOption -> bool)
    requires forall k :: 0 <= k < |s| ==> !p(s[k])
    ensures Filter(s, p) == []
  {
  }

  /** A table listed category by category splits into its categories. */
  lemma BlocksSplit(stocks: seq<TickerOption>, forex: seq<TickerOption>, crypto: seq<TickerOption>)
    requires forall k :: 0 <= k < |stocks| ==> stocks[k].category == "Stocks"
    requires forall k :: 0 <= k < |forex| ==> forex[k].category == "Forex"
    requires forall k :: 0 <= k < |crypto| ==> crypto[k].category == "Crypto"
    ensures InCategory(stocks + forex + crypto, "Stocks") == stocks
    ensures InCategory(stocks + forex + crypto, "Forex") == forex
    ensures InCategory(stocks + forex + crypto, "Crypto") == crypto
  {
    assert "Stocks" != "Forex" && "Stocks" != "Crypto" && "Forex" != "Crypto";
    ThreeBlocks(stocks, forex, crypto, "Stocks");
    ThreeBlocks(stocks, forex, crypto, "Forex");
    ThreeBlocks(stocks, forex, crypto, "Crypto");
    Uniform(stocks, "Stocks", "Stocks");
    Uniform(stocks, "Stocks", "Forex");
    Uniform(stocks, "Stocks", "Crypto");
    Uniform(forex, "Forex", "Stocks");
    Uniform(forex, "Forex", "Forex");
    Uniform(forex, "Forex", "Crypto");
    Uniform(crypto, "Crypto", "Stocks");
    Uniform(crypto, "Crypto", "Forex");
    Uniform(crypto, "Crypto", "Crypto");
  }

  /** A category's listing of three blocks is the listings of the blocks, in order. */
  lemma ThreeBlocks(a: seq<TickerOption>, b: seq<TickerOption>, c: seq<TickerOption>, category: string)
    ensures InCategory(a + b + c, category) == InCategory(a, category) + InCategory(b, category) + InCategory(c, category)
  {
    var p := CategoryIs(category);
    FilterAppend(a + b, c, p);
    FilterAppend(a, b, p);
  }

  /** In a block of options all of category `d`, category `d` lists all of them and any
      other category none. */
  lemma Uniform(block: seq<TickerOption>, d: string, category: string)
    requires forall k :: 0 <= k < |block| ==> block[k].category == d
    ensures InCategory(block, category) == if d == category then block else []
  {
    var p := CategoryIs(category);
    if d == category {
      FilterAll(block, p);
    } else {
      NoneSelected(block, p);
    }
  }

  /** The table lists five stocks, five currency pairs and three cryptocurrencies, and
      every option belongs to exactly one of the three categories. */
  lemma CategoriesSplitTable()
    ensures TickerOptions == TickersByCategory("Stocks") + TickersByCategory("Forex") + TickersByCategory("Crypto")
    ensures |TickersByCategory("Stocks")| == 5 && |TickersByCategory("Forex")| == 5 && |TickersByCategory("Crypto")| == 3
  {
    BlocksSplit(StockOptions, ForexOptions, CryptoOptions);
  }
}
