/** The ticker picker: the tickers the server offers, narrowed to the user's allowed
    ones, grouped by a name-based guess at the asset class, and searched by substring. */
module TickerSelector {
  import opened Wrappers
  import opened Text
  import opened Seqs

  datatype Category = Crypto | Forex | Stocks

  predicate LooksCrypto(t: string) {
    Contains(t, "USDT") || Contains(t, "BTC") || Contains(t, "ETH")
  }

  predicate LooksForex(t: string) {
    Contains(t, "USD") || Contains(t, "JPY") || Contains(t, "EUR") || Contains(t, "GBP")
    || Contains(t, "CHF") || Contains(t, "CAD") || Contains(t, "AUD") || Contains(t, "NZD")
  }

  /** The bucket a ticker goes to; the crypto test comes first. */
  function BucketOf(t: string): Category {
    if LooksCrypto(t) then Crypto else if LooksForex(t) then Forex else Stocks
  }

  function InBucket(c: Category): string -> bool {
    (t: string) => BucketOf(t) == c
  }

  datatype Buckets = Buckets(forex: seq<string>, crypto: seq<string>, stocks: seq<string>)

  /** `categorizeTickers`: one pass over the tickers, pushing each onto its bucket. */
  function Categorize(ts: seq<string>): Buckets {
    if |ts| == 0 then Buckets([], [], [])
    else
      var t := ts[|ts| - 1];
      var b := Categorize(ts[..|ts| - 1]);
      match BucketOf(t)
      case Crypto => b.(crypto := b.crypto + [t])
      case Forex => b.(forex := b.forex + [t])
      case Stocks => b.(stocks := b.stocks + [t])
  }

  function Bucket(b: Buckets, c: Category): seq<string> {
    match c
    case Crypto => b.crypto
    case Forex => b.forex
    case Stocks => b.stocks
  }

  /** Each bucket is exactly the tickers of that category, in input order. */
  lemma {:induction false} CategorizeIsFilter(ts: seq<string>, c: Category)
    ensures Bucket(Categorize(ts), c) == Filter(ts, InBucket(c))
    decreases |ts|
  {
    if |ts| > 0 {
      var init := ts[..|ts| - 1];
      var t := ts[|ts| - 1];
      CategorizeIsFilter(init, c);
      assert ts == init + [t];
      BucketSnoc(init, t, c);
      FilterSnoc(init, t, InBucket(c));
    }
  }

  /** One more ticker lengthens only its own bucket. */
  lemma BucketSnoc(init: seq<string>, t: string, c: Category)
    ensures Bucket(Categorize(init + [t]), c) == Bucket(Categorize(init), c) + (if InBucket(c)(t) then [t] else [])
  {
    CategorizeSnoc(init, t);
  }

  /** One more ticker goes onto the end of its own bucket. */
  lemma CategorizeSnoc(init: seq<string>, t: string)
    ensures Categorize(init + [t]) == match BucketOf(t)
      case Crypto => Categorize(init).(crypto := Categorize(init).crypto + [t])
      case Forex => Categorize(init).(forex := Categorize(init).forex + [t])
      case Stocks => Categorize(init).(stocks := Categorize(init).stocks + [t])
  {
    assert (init + [t])[..|init|] == init;
  }

  /** The buckets partition the input: together they hold every ticker exactly as often
      as the input does. */
  lemma {:induction false} CategorizePartitions(ts: seq<string>)
    ensures var b := Categorize(ts);
            multiset(b.forex) + multiset(b.crypto) + multiset(b.stocks) == multiset(ts)
            && |b.forex| + |b.crypto| + |b.stocks| == |ts|
    decreases |ts|
  {
    if |ts| > 0 {
      var init := ts[..|ts| - 1];
      var t := ts[|ts| - 1];
      CategorizePartitions(init);
      assert ts == init + [t];
      CategorizeSnoc(init, t);
    }
  }

  /** `getCategoryLabel`. */
  function CategoryLabel(t: string): string {
    if LooksCrypto(t) then "Crypto" else if LooksForex(t) then "Forex" else "Stock"
  }

  /** The label shown next to a ticker names the bucket it was grouped into. */
  lemma LabelMatchesBucket(ts: seq<string>, t: string)
    requires t in ts
    ensures t in Categorize(ts).crypto <==> CategoryLabel(t) == "Crypto"
    ensures t in Categorize(ts).forex <==> CategoryLabel(t) == "Forex"
    ensures t in Categorize(ts).stocks <==> CategoryLabel(t) == "Stock"
  {
    var k :| 0 <= k < |ts| && ts[k] == t;
    var b := Categorize(ts);
    CategorizeIsFilter(ts, Crypto);
    CategorizeIsFilter(ts, Forex);
    CategorizeIsFilter(ts, Stocks);
    assert InBucket(BucketOf(t))(ts[k]);
  }

  /** 'BTCUSD' mentions USD, yet the crypto test claims it first. */
  lemma BitcoinIsCrypto()
    ensures Contains("BTCUSD", "USD") && LooksForex("BTCUSD")
    ensures BucketOf("BTCUSD") == Crypto && CategoryLabel("BTCUSD") == "Crypto"
  {
    assert OccursAt("BTCUSD", "USD", 3);
    assert OccursAt("BTCUSD", "BTC", 0);
  }

  /** The server's tickers (none until they load), narrowed to the user's allowed ones
      when a list of them is given. */
  function Allowed(available: Option<seq<string>>, user: Option<seq<string>>): (r: seq<string>)
    ensures IsSubsequence(r, available.GetOr([]))
    ensures user.Some? ==> forall k :: 0 <= k < |r| ==> r[k] in user.value
    ensures user.None? ==> r == available.GetOr([])
  {
    var ts := available.GetOr([]);
    match user
    case None =>
      SubsequenceOfItself(ts);
      ts
    case Some(u) =>
      FilterIsSubsequence(ts, (t: string) => t in u);
      Filter(ts, (t: string) => t in u)
  }

  function QueryIn(query: string): string -> bool {
    (t: string) => Contains(Lower(t), Lower(query))
  }

  /** `getFilteredTickers`: the allowed tickers containing the query, ignoring case. */
  function FilteredTickers(available: Option<seq<string>>, user: Option<seq<string>>, query: string): (r: seq<string>)
    ensures IsSubsequence(r, Allowed(available, user))
    ensures forall k :: 0 <= k < |r| ==> Contains(Lower(r[k]), Lower(query))
    ensures forall k :: 0 <= k < |Allowed(available, user)| && Contains(Lower(Allowed(available, user)[k]), Lower(query))
              ==> Allowed(available, user)[k] in r
  {
    Matching(Allowed(available, user), query)
  }

  /** The tickers of `ts` containing the query, ignoring case, in their order. */
  function Matching(ts: seq<string>, query: string): (r: seq<string>)
    ensures IsSubsequence(r, ts)
    ensures forall k :: 0 <= k < |r| ==> Contains(Lower(r[k]), Lower(query))
    ensures forall k :: 0 <= k < |ts| && Contains(Lower(ts[k]), Lower(query)) ==> ts[k] in r
  {
    FilterIsSubsequence(ts, QueryIn(query));
    Filter(ts, QueryIn(query))
  }

  /** With a list of allowed tickers, neither the search results nor the groups show a
      ticker outside it. */
  lemma RestrictedToUser(available: Option<seq<string>>, u: seq<string>, query: string)
    ensures forall k :: 0 <= k < |FilteredTickers(available, Some(u), query)| ==> FilteredTickers(available, Some(u), query)[k] in u
    ensures var b := Categorize(Allowed(available, Some(u)));
            forall t :: t in b.forex + b.crypto + b.stocks ==> t in u
  {
    var a := Allowed(available, Some(u));
    var b := Categorize(a);
    CategorizePartitions(a);
    forall t | t in b.forex + b.crypto + b.stocks
      ensures t in u
    {
      assert t in multiset(b.forex) + multiset(b.crypto) + multiset(b.stocks);
      assert t in multiset(a);
    }
  }

  /** The open/closed state of the dropdown and the text in the search box. */
  datatype SelectorState = SelectorState(isOpen: bool, query: string)

  /** `handleTickerSelect`: report the ticker, close the dropdown and clear the search;
      the second component is the value passed to `onChange`. */
  function SelectTicker(s: SelectorState, ticker: string): (r: (SelectorState, string))
    ensures r.1 == ticker && !r.0.isOpen && r.0.query == ""
  {
    (SelectorState(false, ""), ticker)
  }

  /** Typing opens the dropdown on the new search text. */
  function InputChange(s: SelectorState, text: string): (r: SelectorState)
    ensures r.isOpen && r.query == text
  {
    SelectorState(true, text)
  }

  /** After a selection the cleared search shows every allowed ticker again. */
  lemma SelectionClearsFilter(available: Option<seq<string>>, user: Option<seq<string>>, s: SelectorState, ticker: string)
    ensures FilteredTickers(available, user, SelectTicker(s, ticker).0.query) == Allowed(available, user)
  {
    var a := Allowed(available, user);
    forall k | 0 <= k < |a|
      ensures QueryIn("")(a[k])
    {
      assert OccursAt(Lower(a[k]), "", 0);
    }
    FilterAll(a, QueryIn(""));
  }
}
