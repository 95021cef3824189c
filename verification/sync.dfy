/**
  `fetch_shows_for_list`, end to end: route the category, send the merged
  query to the metadata service, reduce the reply to its result items, and
  enrich them into records. The service and the external-ID lookup are
  parameters: `http` maps a path and its query to the reply, `lookup` is the
  per-item external-ID request.
*/
module Sync {
  import opened Wrappers
  import opened Json
  import Params
  import Fetch
  import Routing
  import Enrich

  /** The listing request: endpoint path and query parameters to the reply. */
  type Http = (string, map<string, string>) -> Fetch.Response

  /** The query actually sent for category `c` with API key `apiKey`. */
  function QueryOf(c: Routing.Category, apiKey: string): map<string, string> {
    Params.MergeParams(Routing.Route(c).params, apiKey)
  }

  /** The records `fetch_shows_for_list` returns for category `c`, or the exception it raises. */
  function FetchShowsForList(c: Routing.Category, apiKey: string, http: Http, lookup: Enrich.Lookup)
    : (r: Result<seq<Enrich.Record>, Fault>)
    ensures r.Success? ==>
              forall j :: 0 <= j < |r.value| ==>
                r.value[j].kind == Routing.Route(c).contentType && Truthy(r.value[j].imdbId)
  {
    var request := Routing.Route(c);
    match Fetch.Results(http(request.path, Params.MergeParams(request.params, apiKey)))
    case Failure(e) => Failure(e)
    case Success(results) => Enrich.EnrichResults(results, request.contentType, lookup)
  }

  /**
    Every request carries the configured key and a language; a discovery
    request also carries the category's own filters (other than `api_key`)
    unchanged, and a special request carries nothing else.
  */
  lemma QueryContents(c: Routing.Category, apiKey: string)
    ensures QueryOf(c, apiKey)[Params.ApiKeyParam] == apiKey
    ensures Params.LanguageParam in QueryOf(c, apiKey)
    ensures Routing.Dispatch(c).Discover? ==>
              var filters := c.params.GetOr(map[]);
              forall k :: k in filters && k != Params.ApiKeyParam ==> QueryOf(c, apiKey)[k] == filters[k]
    ensures !Routing.Dispatch(c).Discover? ==>
              QueryOf(c, apiKey) == map[Params.ApiKeyParam := apiKey, Params.LanguageParam := Params.DefaultLanguage]
  {
  }

  /**
    The listing service is consulted at one point only, the routed path with
    the merged query: two services that agree there give the same outcome.
    For a special category that point is its fixed endpoint, never discovery.
  */
  lemma {:induction false} OnlyTheRoutedRequestMatters(c: Routing.Category, apiKey: string, h1: Http, h2: Http, lookup: Enrich.Lookup)
    requires h1(Routing.Route(c).path, QueryOf(c, apiKey)) == h2(Routing.Route(c).path, QueryOf(c, apiKey))
    ensures FetchShowsForList(c, apiKey, h1, lookup) == FetchShowsForList(c, apiKey, h2, lookup)
  {
  }

  /** A recognised special gives the same outcome whatever filter parameters the category holds. */
  lemma SpecialOutcomeIgnoresFilters(c: Routing.Category, p: Option<map<string, string>>, apiKey: string,
                                     http: Http, lookup: Enrich.Lookup)
    requires c.special.Some? && c.special.value in Routing.Specials
    ensures FetchShowsForList(c.(params := p), apiKey, http, lookup) == FetchShowsForList(c, apiKey, http, lookup)
  {
    Routing.SpecialIgnoresFilterParams(c, p);
  }

  /**
    When the reply is a 200 object whose `results` is a list of items that
    cannot raise, the outcome is the records of the kept items in order, so
    there are at most as many records as items.
  */
  lemma {:induction false} WellFormedReplyGivesFilterMap(c: Routing.Category, apiKey: string, http: Http,
                                                        lookup: Enrich.Lookup, items: seq<Value>)
    requires var reply := http(Routing.Route(c).path, QueryOf(c, apiKey));
             && reply.status == Fetch.OkStatus
             && reply.body.Some? && reply.body.value.Obj?
             && Get(reply.body.value.fields, Fetch.ResultsField) == Arr(items)
    requires Enrich.AllProcessable(items, Routing.Route(c).contentType, lookup)
    ensures var ct := Routing.Route(c).contentType;
            FetchShowsForList(c, apiKey, http, lookup) ==
              Success(Enrich.Select(items, Enrich.KeptIndices(items, ct, lookup), ct, lookup))
    ensures |FetchShowsForList(c, apiKey, http, lookup).value| <= |items|
  {
    Enrich.EnrichIsFilterMap(items, Routing.Route(c).contentType, lookup);
  }

  /** The reply to the one listing request made for category `c`. */
  function ReplyOf(c: Routing.Category, apiKey: string, http: Http): Fetch.Response {
    http(Routing.Route(c).path, QueryOf(c, apiKey))
  }

  /**
    A reply that `fetch_tmdb` degrades to `[]` (not JSON, an error status or no
    `results` on an object body) yields no records and raises nothing.
  */
  lemma DegradedReplyGivesNoRecords(c: Routing.Category, apiKey: string, http: Http, lookup: Enrich.Lookup)
    requires Fetch.Results(ReplyOf(c, apiKey, http)) == Success(Fetch.NoResults)
    ensures FetchShowsForList(c, apiKey, http, lookup) == Success([])
  {
  }

  /**
    `fetch_shows_for_list` raises exactly when `fetch_tmdb` raises (the
    exception passes through unchanged), when its results are a list holding an
    item that cannot be processed, or when they are anything but a list, an
    empty object or an empty string.
  */
  lemma {:induction false} FetchShowsForListRaisesIff(c: Routing.Category, apiKey: string, http: Http, lookup: Enrich.Lookup)
    ensures var fetched := Fetch.Results(ReplyOf(c, apiKey, http));
            var ct := Routing.Route(c).contentType;
            FetchShowsForList(c, apiKey, http, lookup).Failure? <==>
              || fetched.Failure?
              || (fetched.value.Arr? && !Enrich.AllProcessable(fetched.value.items, ct, lookup))
              || (!fetched.value.Arr? && fetched.value != Obj(map[]) && fetched.value != Str(""))
    ensures Fetch.Results(ReplyOf(c, apiKey, http)).Failure? ==>
              FetchShowsForList(c, apiKey, http, lookup) == Failure(Fetch.Results(ReplyOf(c, apiKey, http)).error)
  {
    var fetched := Fetch.Results(ReplyOf(c, apiKey, http));
    if fetched.Success? && fetched.value.Arr? {
      Enrich.EnrichSucceedsIff(fetched.value.items, Routing.Route(c).contentType, lookup);
    }
  }
}
