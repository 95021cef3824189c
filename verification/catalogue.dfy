/**
  `get_category_list`: the fixed catalogue of categories the synchroniser
  publishes, in source order: streaming services filtered by network or
  keyword, the four special lists, and genres. Every entry sets `slug`,
  `name` and `type`, and either one filter parameter or a special behaviour.
*/
module Catalogue {
  import opened Wrappers
  import opened Routing

  /** A category filtered by one discovery parameter. */
  function Filtered(slug: string, name: string, kind: string, param: string, value: string): Category {
    Category(slug, name, Some(kind), Some(map[param := value]), None)
  }

  /** A category backed by a special behaviour. */
  function Special(slug: string, name: string, kind: string, special: string): Category {
    Category(slug, name, Some(kind), None, Some(special))
  }

  const Categories: seq<Category> := [
      // streaming services
      Filtered("netflix-series", "Netflix Series", "series", "with_networks", "213"),
      Filtered("netflix-movies", "Netflix Movies", "movie", "with_networks", "213"),
      Filtered("disney-series", "Disney+ Series", "series", "with_networks", "2739"),
      Filtered("disney-movies", "Disney+ Movies", "movie", "with_networks", "2739"),
      Filtered("prime-series", "Prime Series", "series", "with_networks", "1024"),
      Filtered("prime-movies", "Prime Movies", "movie", "with_networks", "1024"),
      Filtered("apple-series", "Apple TV+ Series", "series", "with_networks", "2552"),
      Filtered("apple-movies", "Apple TV+ Movies", "movie", "with_networks", "2552"),
      Filtered("stan-series", "Stan Series", "series", "with_keywords", "186729"),
      Filtered("stan-movies", "Stan Movies", "movie", "with_keywords", "186729"),
      // general categories
      Special("trending-series", "Trending Series", "series", "trending"),
      Special("trending-movies", "Trending Movies", "movie", "trending"),
      Special("popular-series", "Popular Series", "series", "popular"),
      Special("popular-movies", "Popular Movies", "movie", "popular"),
      Special("cinema", "In Cinemas", "movie", "now_playing"),
      Special("newreleases", "New Releases", "series", "airing_today"),
      // genres
      Filtered("action-series", "Action Series", "series", "with_genres", "10759"),
      Filtered("action-movies", "Action Movies", "movie", "with_genres", "28"),
      Filtered("comedy-series", "Comedy Series", "series", "with_genres", "35"),
      Filtered("comedy-movies", "Comedy Movies", "movie", "with_genres", "35"),
      Filtered("family-series", "Family Series", "series", "with_genres", "10751"),
      Filtered("family-movies", "Family Movies", "movie", "with_genres", "10751"),
      Filtered("horror-series", "Horror Series", "series", "with_genres", "27"),
      Filtered("horror-movies", "Horror Movies", "movie", "with_genres", "27"),
      Filtered("kids-series", "Kids Series", "series", "with_genres", "10762"),
      Filtered("kids-movies", "Kids Movies", "movie", "with_genres", "16"),
      Filtered("thriller-series", "Thriller Series", "series", "with_genres", "53"),
      Filtered("thriller-movies", "Thriller Movies", "movie", "with_genres", "53"),
      Filtered("romance-series", "Romance Series", "series", "with_genres", "10749"),
      Filtered("romance-movies", "Romance Movies", "movie", "with_genres", "10749"),
      Filtered("adventure-series", "Adventure Series", "series", "with_genres", "12"),
      Filtered("adventure-movies", "Adventure Movies", "movie", "with_genres", "12")
    ]

  /** One entry's invariants: a known type, one query spec, and a special the dispatch recognises. */
  predicate EntryWellFormed(c: Category) {
    && c.kind.Some? && (c.kind.value == Series || c.kind.value == Movie)
    && (c.params.Some? != c.special.Some?)
    && (c.special.Some? ==> c.special.value in Specials)
    && (c.special == Some(NowPlaying) ==> c.kind == Some(Movie))
    && (c.special == Some(AiringToday) ==> c.kind == Some(Series))
  }

  /** Slugs name the output files, so no two entries may share one. */
  predicate SlugsDistinct(cs: seq<Category>) {
    forall i, j :: 0 <= i < j < |cs| ==> cs[i].slug != cs[j].slug
  }

  predicate WellFormed(cs: seq<Category>) {
    && SlugsDistinct(cs)
    && forall i :: 0 <= i < |cs| ==> EntryWellFormed(cs[i])
  }

  /** The catalogue `get_category_list` returns: 32 entries, well formed. */
  function CategoryList(): (r: seq<Category>)
    ensures |r| == 32
    ensures WellFormed(r)
  {
    EntriesWellFormed();
    CatalogueSlugsDistinct();
    Categories
  }

  /**
    In a well-formed catalogue every entry's records carry the entry's own
    declared type, and exactly the entries with a special bypass discovery.
  */
  lemma {:induction false} WellFormedRoutes(cs: seq<Category>)
    requires WellFormed(cs)
    ensures forall i :: 0 <= i < |cs| ==> Route(cs[i]).contentType == cs[i].kind.value
    ensures forall i :: 0 <= i < |cs| ==> (Dispatch(cs[i]).Discover? <==> cs[i].special.None?)
    ensures forall i :: 0 <= i < |cs| && cs[i].special.None? ==> Route(cs[i]).params == cs[i].params.value
  {
  }

  /** The `cinema` entry requests the now-playing movie list, never discovery. */
  lemma CinemaRoutesToNowPlaying()
    ensures Categories[14].slug == "cinema"
    ensures Route(Categories[14]) == Request("/movie/now_playing", map[], Movie)
  {
  }

  // The rest of this module is proof bookkeeping for `CategoryList` and models
  // nothing in the synchroniser. Comparing 32 string literals pairwise is too
  // costly for the solver, so each slug is mapped to an integer fingerprint
  // (a proof device only), the fingerprints are shown pairwise distinct, and
  // equal slugs would have equal fingerprints. `Slugs` repeats the slugs of
  // `Categories` in order, which `SlugsOfCategories` proves.

  lemma EntriesWellFormed()
    ensures forall i :: 0 <= i < |Categories| ==> EntryWellFormed(Categories[i])
  {
    FirstEntriesWellFormed();
    LastEntriesWellFormed();
  }

  lemma FirstEntriesWellFormed()
    ensures forall i :: 0 <= i < 16 ==> EntryWellFormed(Categories[i])
  {
  }

  lemma LastEntriesWellFormed()
    ensures forall i :: 16 <= i < |Categories| ==> EntryWellFormed(Categories[i])
  {
  }

  /** Length and three characters, enough to tell the catalogue's slugs apart. */
  function Fingerprint(s: string): int {
    if |s| < 6 then -1
    else |s| * 16777216 + (s[0] as int) * 65536 + (s[1] as int) * 256 + (s[|s| - 6] as int)
  }

  const Slugs: seq<string> := [
      "netflix-series", "netflix-movies", "disney-series", "disney-movies", "prime-series",
      "prime-movies", "apple-series", "apple-movies", "stan-series", "stan-movies",
      "trending-series", "trending-movies", "popular-series", "popular-movies", "cinema",
      "newreleases", "action-series", "action-movies", "comedy-series", "comedy-movies",
      "family-series", "family-movies", "horror-series", "horror-movies", "kids-series",
      "kids-movies", "thriller-series", "thriller-movies", "romance-series", "romance-movies",
      "adventure-series", "adventure-movies"
    ]

  const Fingerprints: seq<int> := [
      242115955, 242115949, 224684403, 224684397, 208695923, 208695917, 207712371, 207712365,
      192115827, 192115821, 259289715, 259289709, 242249587, 242249581, 107178339, 191784300,
      224486259, 224486253, 224620403, 224620397, 224813427, 224813421, 224948083, 224948077,
      191588723, 191588717, 259287155, 259287149, 242380659, 242380653, 274818163, 274818157
    ]

  lemma SlugsOfCategories()
    ensures |Slugs| == |Categories|
    ensures forall i :: 0 <= i < |Slugs| ==> Categories[i].slug == Slugs[i]
  {
  }

  lemma FingerprintsOfFirstHalf()
    ensures |Fingerprints| == |Slugs|
    ensures forall i :: 0 <= i < 16 ==> Fingerprint(Slugs[i]) == Fingerprints[i]
  {
  }

  lemma FingerprintsOfSecondHalf()
    ensures forall i :: 16 <= i < |Slugs| ==> Fingerprint(Slugs[i]) == Fingerprints[i]
  {
  }

  lemma FingerprintsDistinct()
    ensures forall i, j :: 0 <= i < j < |Fingerprints| ==> Fingerprints[i] != Fingerprints[j]
  {
    FingerprintsDistinctWithin(0, 16);
    FingerprintsDistinctWithin(16, 32);
    FingerprintsDistinctAcross();
  }

  lemma FingerprintsDistinctWithin(lo: int, hi: int)
    requires (lo, hi) == (0, 16) || (lo, hi) == (16, 32)
    ensures forall i, j :: lo <= i < j < hi ==> Fingerprints[i] != Fingerprints[j]
  {
  }

  lemma FingerprintsDistinctAcross()
    ensures forall i, j :: 0 <= i < 16 <= j < |Fingerprints| ==> Fingerprints[i] != Fingerprints[j]
  {
  }

  lemma CatalogueSlugsDistinct()
    ensures SlugsDistinct(Categories)
  {
    // `Slugs` mirrors the slugs of `Categories`, position by position
    SlugsOfCategories();
    FingerprintsOfFirstHalf();
    FingerprintsOfSecondHalf();
    FingerprintsDistinct();
    forall i, j | 0 <= i < j < |Categories|
      ensures Categories[i].slug != Categories[j].slug
    {
      assert Fingerprint(Slugs[i]) == Fingerprints[i];
      assert Fingerprint(Slugs[j]) == Fingerprints[j];
    }
  }
}
