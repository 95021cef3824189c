# AutoSyncStremio list synchroniser — a Dafny model

The synchroniser builds Stremio catalogues from The Movie Database (TMDb).
For every category in a fixed catalogue it asks TMDb for a list of titles
(a filtered discovery list or one of four special lists), looks up each
title's IMDb ID, and keeps a `{title, imdb_id, type}` record for every title
that has one. This project models the pure decisions in `sync_lists.py` and
proves what they promise:

- `params.dfy` (`Params`): the query-parameter merge of `fetch_tmdb`. The API
  key always replaces any caller value, `language` defaults to `en-AU` only
  when absent, and merging is idempotent (last key wins).
- `fetch.dfy` (`Fetch`): how one HTTP reply becomes the result list. A
  non-JSON body gives `[]`. For an object body, a non-200 status or a
  missing `results` field gives `[]`, and otherwise the result is exactly
  `data["results"]`. A body that is JSON but not an object gives `[]` or
  raises.
- `routing.dfy` (`Routing`): how a category picks its endpoint path,
  parameters and record type. It includes the fall-through to discovery. A
  parser reads every built path back to the endpoint it names.
- `enrich.dfy` (`Enrich`): `to_json_format` and the reply handling of
  `fetch_imdb_id`. Without an exception, the output is exactly the records of
  the kept items in input order. An item is dropped exactly when its IMDb ID
  is not truthy.
- `catalogue.dfy` (`Catalogue`): the 32-entry catalogue of
  `get_category_list` and its invariants. Slugs are distinct, every type is
  `series` or `movie`, each entry has exactly one of filters or special, and
  every special is routed.
- `sync.dfy` (`Sync`): `fetch_shows_for_list` end to end.
- `json.dfy` (`Json`) and `wrappers.dfy` (`Wrappers`): decoded JSON values,
  the Python operations the source applies to them, and `Option`/`Result`.
  `Json.Truthy` is Python's truth value of a decoded value: `null`, `false`,
  zero, and empty strings, lists and objects are false. It decides which
  items are dropped.

Network access is made into parameters. `http: (path, query) -> Response`
stands for the listing request. `lookup: (id, "tv" | "movie") -> Option<Value>`
stands for the external-ID request and returns the decoded reply body, or
`None` when the body is not JSON. The API key is a plain parameter.

Python exceptions are part of the model. Each one is a `Fault` in a
`Result`, because it propagates out of `fetch_shows_for_list`; the caller
catches it per category. Examples: `item["id"]` on an item without an id,
`.get` on a reply body that is not an object, or iterating a `results` value
that is a number.

Behaviour worth noting:
- `fetch_tmdb` requests one page per list; there is no pagination.
- Category types are free strings, not an enumeration. Trending and popular
  lists put the declared type into the path as written, so a series
  category requests `/trending/series/week`. Discovery and the ID lookup
  translate `series` to `tv`.
- A reply whose body is JSON but not an object does not always degrade to
  `[]`: depending on the status and contents it can raise.

## Model

| member | source | states |
|---|---|---|
| Params.MergeParams | sync_lists.py:10-13 | the merged query holds exactly the caller's keys plus `api_key` and `language`; `api_key` is the configured key; `language` keeps the caller's value or is `en-AU`; every other key is unchanged |
| Params.MergeTwiceLastKeyWins | sync_lists.py:11 | merging an already merged query with another key equals one merge with that key |
| Params.MergeIdempotent | sync_lists.py:10-13 | merging twice with the same key equals merging once, so reusing the mutated dict sends the same query |
| Json.Or | sync_lists.py:58 | Python `a or b` is `a` when `a` is truthy and `b` otherwise; the result is truthy iff either operand is |
| Json.Contains | sync_lists.py:30 | `"results" in data` is key membership for a dict, element membership for a list and substring membership for a string; for anything else it raises TypeError |
| Json.HasInfixIffOccurs | sync_lists.py:30 | substring membership holds iff the needle occurs at some position |
| Json.Subscript | sync_lists.py:53 | `item["id"]` yields a value iff the item is a dict holding `id`; otherwise KeyError for a dict and TypeError for anything else |
| Json.GetAttr | sync_lists.py:45 | `.get` on a dict returns the value or null; on anything else it raises AttributeError |
| Fetch.Results | sync_lists.py:18-34 | non-JSON body gives `[]`; an object body gives `data["results"]` for status 200 with `results` and `[]` otherwise; a non-object body gives `[]` or raises, never results |
| Fetch.NonEmptyResultsComeFromResultsField | sync_lists.py:26-34 | anything other than `[]` comes from a 200 object reply and is exactly its `results` field |
| Fetch.ResultsFailsIff | sync_lists.py:18-34 | the reply raises iff its body is non-object JSON and a dict-only operation is reached: `.get` on an error status, `in` on a scalar, or subscription of a list/string containing `"results"` |
| Routing.Route | sync_lists.py:64-79 | trending goes to `/trending/{type}/week` and popular to `/{type}/popular` with the declared type; now_playing goes to `/movie/now_playing` as movie; airing_today goes to `/tv/airing_today` as series; specials send no filters; otherwise `/discover/tv` iff the type is series, else `/discover/movie`, with the category's filters; the type defaults to series |
| Routing.ParsePathOf | sync_lists.py:69-79 | every path the dispatch builds parses back to the endpoint it was built from |
| Routing.RoutePathsIdentifyEndpoints | sync_lists.py:69-79 | two categories request the same path iff they dispatch to the same endpoint |
| Routing.SpecialIgnoresFilterParams | sync_lists.py:65-76 | for a recognised special, changing the category's filter parameters does not change the request |
| Routing.UnknownSpecialFallsThrough | sync_lists.py:66-79 | an unrecognised special is routed exactly as if the category had no special |
| Routing.FixedSpecialsIgnoreType | sync_lists.py:73-76 | now_playing and airing_today make the same request whatever type the category declares |
| Enrich.LookupKind | sync_lists.py:53 | the ID lookup uses `tv` iff the content type is `series`, and `movie` otherwise |
| Enrich.ImdbIdOf | sync_lists.py:42-48 | a non-JSON reply gives None (null); an object reply gives its `imdb_id` or null; any other JSON reply raises AttributeError |
| Enrich.Format | sync_lists.py:53-61 | a record has the list's content type; its IMDb ID is the looked-up ID, which is truthy iff the item is kept; its title is `name` when truthy, else `title` |
| Enrich.Step | sync_lists.py:53-61 | one iteration raises iff the item cannot be processed: TypeError for a non-dict, KeyError without `id`, AttributeError for a lookup reply that is JSON but not an object; otherwise it skips the item or emits its record, according to whether it is kept |
| Enrich.Enrich | sync_lists.py:50-62 | on success there are at most as many records as items, each of the list's content type with a truthy IMDb ID |
| Enrich.EnrichResults | sync_lists.py:52 | a list of results is enriched item by item; an empty object or string gives `[]` and a non-empty one raises TypeError; a number, boolean or null raises TypeError |
| Enrich.KeptIndices | sync_lists.py:52-56 | the kept positions are strictly increasing, in range, and contain an index iff that item's IMDb ID is truthy |
| Enrich.EnrichSucceedsIff | sync_lists.py:52-61 | enrichment raises iff some item cannot be processed |
| Enrich.EnrichIsFilterMap | sync_lists.py:50-62 | without an exception, the output is exactly the records of the kept items in input order |
| Enrich.SeriesItemWithImdbIdIsKept | sync_lists.py:50-62 | a series item `{id: 7, name: "Y"}` whose lookup under `tv` finds `tt0000007` yields exactly the record `{title: "Y", imdb_id: "tt0000007", type: "series"}` |
| Enrich.MovieItemWithoutImdbIdIsDropped | sync_lists.py:50-62 | a movie item `{id: 42, title: "X"}` yields no record when its lookup reply is not JSON, or is an object whose `imdb_id` is missing or not truthy (such as `null`) |
| Enrich.EnrichQueriesOnlyItsKind | sync_lists.py:53 | the outcome depends on the lookup only under the kind `LookupKind(contentType)` |
| Catalogue.CategoryList | sync_lists.py:81-120 | the catalogue has 32 entries; slugs are distinct; every type is series or movie; each entry has exactly one of filters or special; every special is one of the four routed values; now_playing is movie and airing_today is series |
| Catalogue.CinemaRoutesToNowPlaying | sync_lists.py:100 | the `cinema` entry requests `/movie/now_playing` with no filters and yields movie records |
| Catalogue.WellFormedRoutes | sync_lists.py:67-79 | in a well-formed catalogue every entry's records carry its declared type; exactly the entries without a special go to discovery, with their own filters |
| Sync.FetchShowsForList | sync_lists.py:64-79 | every record returned has the routed content type and a truthy IMDb ID |
| Sync.QueryContents | sync_lists.py:10-13 | every request carries the key and a language; discovery keeps the category's filters; a special sends only key and `en-AU` |
| Sync.OnlyTheRoutedRequestMatters | sync_lists.py:69-79 | the outcome depends on the listing service only at the routed path with the merged query |
| Sync.SpecialOutcomeIgnoresFilters | sync_lists.py:69-76 | for a recognised special, the whole outcome ignores the category's filter parameters |
| Sync.DegradedReplyGivesNoRecords | sync_lists.py:18-32 | a listing reply that degrades to `[]` (not JSON, or an object body with an error status or no `results`) gives no records and raises nothing |
| Sync.FetchShowsForListRaisesIff | sync_lists.py:64-79 | the call raises iff the reply handling raises (with that same exception), or the results are a list holding an unprocessable item, or the results are neither a list nor an empty object or string |
| Sync.WellFormedReplyGivesFilterMap | sync_lists.py:64-79 | for a 200 reply whose `results` is a list of processable items, the outcome is the kept items' records in order, no more records than items |

## Left out

- HTTP requests, headers and the TMDb base URL are not modelled. The listing request is the `http` parameter and the external-ID request is the `lookup` parameter.
- Transport exceptions raised by `requests.get` (connection failures, timeouts) are not modelled: both parameters always return a reply.
- `lookup` is a function, so two items with the same id in one result list always get the same reply. The source sends one request per item, and those replies could differ.
- The external-ID path `/{content_type}/{tmdb_id}/external_ids` is not built. The lookup receives the item's id and the kind, which is all the path carries.
- Decoding a reply body is not modelled; the body arrives already decoded, or as `None` when it is not JSON.
- The API key is a string parameter. The case where the environment variable is unset is not modelled: the source would send `None`, which the HTTP library then omits.
- All console output (`print`, `json.dumps` of replies) is left out as pure side effect.
- `main.py` is not part of this model. It creates the output directory, writes one `{slug}.json` per category and catches each category's exception; this is file I/O around `fetch_shows_for_list`.
- In-place mutation of the shared default `params` dict and of each category's `tmdb_params` is not modelled. The merge returns a fresh map instead, and `Params.MergeIdempotent` shows why the aliasing does not change any request.
- Whether TMDb actually serves the paths built (such as `/trending/series/week`) is outside the model. Only the strings the code builds are reproduced.
- Category keys are modelled as present or absent: `slug`, `name`, `type` and `special` as strings, `tmdb_params` as a map from strings to strings. A key present with value `None`, non-string `special` or `type` values, and non-string filter values inside `tmdb_params` are not modelled.
- `Json.Float` holds a real number, so the `NaN`, `Infinity` and `-Infinity` values that Python's `json` module decodes are not modelled. All three are truthy, so an IMDb ID with one of these values would be kept.
- Python's cross-type numeric equality (`1 == 1.0 == True`) is not modelled. It never matters here, because only strings are compared with `"results"`.
