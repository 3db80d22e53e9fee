/** How the backtest endpoint answers a failed market-data fetch: by looking for
    phrases in the lower-cased text of the error. */
module FetchErrors {
  import opened Text

  /** The three answers: a rejected API key (500), an invalid ticker (400) or a failed
      fetch (500). */
  datatype FetchVerdict = ApiKeyRejected | InvalidTicker | FetchFailed

  /** How a fetch failure is answered, from the lower-cased text of the error, as the
      code reads: the API-key test looks for "API key" in lower-cased text. */
  function FetchErrorAsWritten(message: string): FetchVerdict {
    var m := Lower(message);
    if Contains(m, "API key") then ApiKeyRejected
    else if Contains(m, "not found") || Contains(m, "invalid") then InvalidTicker
    else FetchFailed
  }

  /** The same with the test made on lower-case text: "api key". */
  function FetchError(message: string): (r: FetchVerdict)
    ensures r == ApiKeyRejected <==> Contains(Lower(message), "api key")
    ensures r == InvalidTicker <==> !Contains(Lower(message), "api key") && (Contains(Lower(message), "not found") || Contains(Lower(message), "invalid"))
    ensures r.ApiKeyRejected? || r.InvalidTicker? || r.FetchFailed?
  {
    var m := Lower(message);
    if Contains(m, "api key") then ApiKeyRejected
    else if Contains(m, "not found") || Contains(m, "invalid") then InvalidTicker
    else FetchFailed
  }

  lemma LowerHasNoCapitalA(s: string)
    ensures 'A' !in Lower(s)
  {
  }

  /** Lower-cased text never contains a capital letter, so as written no fetch error is
      ever answered as an API-key problem; otherwise the two agree. */
  lemma FetchErrorAsWrittenNeverApiKey(message: string)
    ensures FetchErrorAsWritten(message) != ApiKeyRejected
    ensures !Contains(Lower(message), "api key") ==> FetchErrorAsWritten(message) == FetchError(message)
  {
    LowerHasNoCapitalA(message);
    MissingCharNotContained(Lower(message), "API key", 'A');
  }

  /** A message naming both an invalid value and the API key is answered as an invalid
      ticker (400) instead of as an API-key problem (500). */
  lemma ApiKeyMessageMisread(message: string)
    requires Contains(Lower(message), "invalid") && Contains(Lower(message), "api key")
    ensures FetchErrorAsWritten(message) == InvalidTicker
    ensures FetchError(message) == ApiKeyRejected
  {
    FetchErrorAsWrittenNeverApiKey(message);
  }

  /** 'Invalid API key' is such a message. */
  lemma ApiKeyMessageExample()
    ensures FetchErrorAsWritten("Invalid API key") == InvalidTicker
    ensures FetchError("Invalid API key") == ApiKeyRejected
  {
    InvalidApiKeyPhrases();
    ApiKeyMessageMisread("Invalid API key");
  }

  lemma InvalidApiKeyPhrases()
    ensures Contains(Lower("Invalid API key"), "invalid") && Contains(Lower("Invalid API key"), "api key")
  {
    LowerOfInvalidApiKey("Invalid API key");
    PhrasesOfInvalidApiKey();
  }

  lemma PhrasesOfInvalidApiKey()
    ensures Contains("invalid api key", "invalid") && Contains("invalid api key", "api key")
  {
    ContainsAt("invalid api key", "invalid", 0);
    ContainsAt("invalid api key", "api key", 8);
  }

  lemma LowerOfInvalidApiKey(s: string)
    requires |s| == 15 && s[0] == 'I' && s[1] == 'n' && s[2] == 'v' && s[3] == 'a' && s[4] == 'l'
    requires s[5] == 'i' && s[6] == 'd' && s[7] == ' ' && s[8] == 'A' && s[9] == 'P' && s[10] == 'I'
    requires s[11] == ' ' && s[12] == 'k' && s[13] == 'e' && s[14] == 'y'
    ensures Lower(s) == "invalid api key"
  {
    var m := Lower(s);
    assert m[0] == 'i' && m[8] == 'a' && m[9] == 'p' && m[10] == 'i';
  }

}
