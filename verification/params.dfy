/**
  The query-parameter merge that `fetch_tmdb` performs before every request:
  the configured API key always replaces any `api_key` the caller passed, and
  `language` is filled in with the Australian-English default only when the
  caller did not set one. The source mutates the caller's dict in place (and
  its default argument is one dict shared by every call); here the merge
  returns a fresh map, and `MergeIdempotent` is why that difference is benign.
*/
module Params {

  const ApiKeyParam := "api_key"
  const LanguageParam := "language"
  const DefaultLanguage := "en-AU"

  /** The parameters sent with a request made with caller parameters `p` and key `apiKey`. */
  function MergeParams(p: map<string, string>, apiKey: string): (r: map<string, string>)
    ensures r.Keys == p.Keys + {ApiKeyParam, LanguageParam}
    ensures r[ApiKeyParam] == apiKey
    ensures LanguageParam in p ==> r[LanguageParam] == p[LanguageParam]
    ensures LanguageParam !in p ==> r[LanguageParam] == DefaultLanguage
    ensures forall k :: k in p && k != ApiKeyParam ==> r[k] == p[k]
  {
    var withKey := p[ApiKeyParam := apiKey];
    if LanguageParam in withKey then withKey else withKey[LanguageParam := DefaultLanguage]
  }

  /** Merging again with another key only replaces the key: the last configured key wins. */
  lemma MergeTwiceLastKeyWins(p: map<string, string>, k1: string, k2: string)
    ensures MergeParams(MergeParams(p, k1), k2) == MergeParams(p, k2)
  {
  }

  /**
    Merging twice with the same key gives the same map as merging once, so a
    dict that already went through one request (the shared default, or a
    category's own `tmdb_params`) sends exactly the same query the next time.
  */
  lemma MergeIdempotent(p: map<string, string>, apiKey: string)
    ensures MergeParams(MergeParams(p, apiKey), apiKey) == MergeParams(p, apiKey)
  {
    MergeTwiceLastKeyWins(p, apiKey, apiKey);
  }
}
