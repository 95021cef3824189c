/**
  `fetch_shows_for_list`'s dispatch: how one category definition decides the
  endpoint path requested, the filter parameters sent with it, and the content
  type stamped on the records produced from its results.

  A category is a dict in the source whose keys are all optional; here each
  optional key is an `Option`. The decision is split into `Dispatch`, which
  names the endpoint, and `PathOf`, which builds the path string exactly as
  the source formats it. `ParsePath` reads a path back, so every path the
  dispatch builds names one endpoint and nothing else.
*/
module Routing {
  import opened Wrappers

  const Series := "series"
  const Movie := "movie"

  const Trending := "trending"
  const Popular := "popular"
  const NowPlaying := "now_playing"
  const AiringToday := "airing_today"

  /** The special behaviours the dispatch recognises. */
  const Specials: set<string> := {Trending, Popular, NowPlaying, AiringToday}

  /** One category definition: `slug`, `name`, `type`, `tmdb_params` and `special`. */
  datatype Category = Category(
    slug: string,
    name: string,
    kind: Option<string>,
    params: Option<map<string, string>>,
    special: Option<string>)

  /** The request a category turns into and the content type of its records. */
  datatype Request = Request(path: string, params: map<string, string>, contentType: string)

  /** The endpoints the dispatch can choose. `Discover(tv)` is the filtered discovery list. */
  datatype Endpoint =
    | TrendingWeek(kind: string)
    | PopularList(kind: string)
    | MovieNowPlaying
    | TvAiringToday
    | Discover(tv: bool)

  /** The declared content type, `"series"` when the category has none. */
  function ContentType(c: Category): string {
    c.kind.GetOr(Series)
  }

  /** The endpoint a category is fetched from: its special behaviour if recognised, else discovery. */
  function Dispatch(c: Category): Endpoint {
    if c.special == Some(Trending) then TrendingWeek(ContentType(c))
    else if c.special == Some(Popular) then PopularList(ContentType(c))
    else if c.special == Some(NowPlaying) then MovieNowPlaying
    else if c.special == Some(AiringToday) then TvAiringToday
    else Discover(ContentType(c) == Series)
  }

  /** The path string requested for an endpoint. */
  function PathOf(e: Endpoint): string {
    match e
    case TrendingWeek(k) => "/trending/" + k + "/week"
    case PopularList(k) => "/" + k + "/popular"
    case MovieNowPlaying => "/movie/now_playing"
    case TvAiringToday => "/tv/airing_today"
    case Discover(tv) => "/discover/" + (if tv then "tv" else "movie")
  }

  /** The endpoint a path names, if it is one the dispatch can build. */
  function ParsePath(p: string): Option<Endpoint> {
    if p == "/movie/now_playing" then Some(MovieNowPlaying)
    else if p == "/tv/airing_today" then Some(TvAiringToday)
    else if p == "/discover/tv" then Some(Discover(true))
    else if p == "/discover/movie" then Some(Discover(false))
    else if |p| >= 15 && p[..10] == "/trending/" && p[|p| - 5..] == "/week" then
      Some(TrendingWeek(p[10..|p| - 5]))
    else if |p| >= 9 && p[..1] == "/" && p[|p| - 8..] == "/popular" then
      Some(PopularList(p[1..|p| - 8]))
    else None
  }

  /** The request `fetch_shows_for_list` makes for category `c`. */
  function Route(c: Category): (r: Request)
    ensures c.special == Some(Trending) ==>
              r.path == "/trending/" + ContentType(c) + "/week" && r.contentType == ContentType(c)
    ensures c.special == Some(Popular) ==>
              r.path == "/" + ContentType(c) + "/popular" && r.contentType == ContentType(c)
    ensures c.special == Some(NowPlaying) ==> r.path == "/movie/now_playing" && r.contentType == Movie
    ensures c.special == Some(AiringToday) ==> r.path == "/tv/airing_today" && r.contentType == Series
    ensures (c.special.Some? && c.special.value in Specials) ==> r.params == map[]
    ensures (c.special.None? || c.special.value !in Specials) ==>
              && r.path == (if ContentType(c) == Series then "/discover/tv" else "/discover/movie")
              && r.params == c.params.GetOr(map[])
              && r.contentType == ContentType(c)
  {
    var e := Dispatch(c);
    var contentType := match e
      case MovieNowPlaying => Movie
      case TvAiringToday => Series
      case _ => ContentType(c);
    var params := if e.Discover? then c.params.GetOr(map[]) else map[];
    Request(PathOf(e), params, contentType)
  }

  /** Every path the dispatch builds reads back as the endpoint it was built from. */
  lemma {:induction false} ParsePathOf(e: Endpoint)
    ensures ParsePath(PathOf(e)) == Some(e)
  {
    var p := PathOf(e);
    match e
    case TrendingWeek(k) =>
      assert p[..10] == "/trending/";
      assert p[|p| - 5..] == "/week";
      assert p[10..|p| - 5] == k;
      assert p[|p| - 1] == 'k';
    case PopularList(k) =>
      assert p[..1] == "/";
      assert p[|p| - 8..] == "/popular";
      assert p[1..|p| - 8] == k;
      assert p[|p| - 1] == 'r';
      assert p[|p| - 5..] != "/week";
    case MovieNowPlaying =>
    case TvAiringToday =>
    case Discover(tv) =>
  }

  /** Two categories are sent to the same path only when they are sent to the same endpoint. */
  lemma RoutePathsIdentifyEndpoints(c1: Category, c2: Category)
    ensures Route(c1).path == Route(c2).path <==> Dispatch(c1) == Dispatch(c2)
  {
    ParsePathOf(Dispatch(c1));
    ParsePathOf(Dispatch(c2));
  }

  /** A recognised special ignores the category's filter parameters altogether. */
  lemma SpecialIgnoresFilterParams(c: Category, p: Option<map<string, string>>)
    requires c.special.Some? && c.special.value in Specials
    ensures Route(c.(params := p)) == Route(c)
  {
  }

  /** An unrecognised special is routed as if the category had none. */
  lemma UnknownSpecialFallsThrough(c: Category)
    requires c.special.Some? && c.special.value !in Specials
    ensures Route(c) == Route(c.(special := None))
  {
  }

  /** Of two categories that differ only in `type`, the fixed specials make the same request. */
  lemma FixedSpecialsIgnoreType(c: Category, k: Option<string>)
    requires c.special == Some(NowPlaying) || c.special == Some(AiringToday)
    ensures Route(c.(kind := k)) == Route(c)
  {
  }
}
