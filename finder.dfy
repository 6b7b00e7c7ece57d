/** The backend's result shaping (`NetflixTitleFinder`): search over TMDB or
    the built-in sample table, formatting of search results into the response
    envelope, and extraction of the Netflix countries from a watch-providers
    reply. Every TMDB reply is a parameter; nothing here performs I/O. */
module Finder {
  import opened Wrappers
  import opened Wire
  import opened Seqs

  /** TMDB's provider id for Netflix. */
  const NETFLIX_PROVIDER_ID := 8

  /** Prefix of every poster URL. */
  const IMAGE_BASE_URL := "https://image.tmdb.org/t/p/w342"

  /** A reply from TMDB: a 200 response whose JSON body was parsed, or
      anything else (another status code, or an exception raised by the
      request or by decoding its body). Every caller treats the latter two
      alike. */
  datatype Reply<+T> = Ok200(body: T) | Failed

  /** One result record as the backend sees it (a TMDB `search/multi` entry
      or a sample entry), with the keys the backend reads or writes. */
  datatype Record = Record(
    id: Field<int>,
    title: Field<string>,
    name: Field<string>,
    mediaType: Field<string>,
    releaseDate: Field<string>,
    firstAirDate: Field<string>,
    voteAverage: Field<real>,
    posterPath: Field<string>,
    posterUrl: Field<string>,
    netflixCountries: Field<seq<string>>)

  /** The record with no keys at all. */
  const BLANK := Record(Missing, Missing, Missing, Missing, Missing, Missing, Missing, Missing, Missing, Missing)

  // ---------------------------------------------------------------------
  // Small lookups
  // ---------------------------------------------------------------------

  /** `_code_to_country_name`: the mapped name of a known code, else the
      code itself. */
  function CodeToCountryName(countryMap: map<string, string>, code: string): (name: string)
    ensures code in countryMap ==> name == countryMap[code]
    ensures code !in countryMap ==> name == code
  {
    if code in countryMap then countryMap[code] else code
  }

  /** `_get_poster_url`: the image prefix joined to a non-empty path, else
      `None`. The path can be read back from the URL. */
  function PosterUrl(posterPath: Option<string>): (url: Option<string>)
    ensures url.Some? <==> Truthy(posterPath)
    ensures url.Some? ==> |url.value| == |IMAGE_BASE_URL| + |posterPath.value|
    ensures url.Some? ==> url.value[..|IMAGE_BASE_URL|] == IMAGE_BASE_URL
    ensures url.Some? ==> url.value[|IMAGE_BASE_URL|..] == posterPath.value
  {
    if Truthy(posterPath) then Some(IMAGE_BASE_URL + posterPath.value) else None
  }

  /** The record after `result["poster_url"] = self._get_poster_url(...)`. */
  function WithPosterUrl(r: Record): (w: Record)
    ensures w == r.(posterUrl := w.posterUrl)
    ensures w.posterUrl.Val? <==> Truthy(GetOpt(r.posterPath))
    ensures w.posterUrl.Null? <==> !Truthy(GetOpt(r.posterPath))
    ensures w.posterUrl.Val? ==> w.posterUrl.value == IMAGE_BASE_URL + r.posterPath.value
    ensures IsMovieOrTv(w) == IsMovieOrTv(r)
  {
    r.(posterUrl := match PosterUrl(GetOpt(r.posterPath)) case Some(u) => Val(u) case None => Null)
  }

  // ---------------------------------------------------------------------
  // search_titles
  // ---------------------------------------------------------------------

  /** The search filter: `media_type` is "movie" or "tv". */
  predicate IsMovieOrTv(r: Record)
    ensures IsMovieOrTv(r) ==> r.mediaType.Val?
    ensures IsMovieOrTv(r) <==> r.mediaType == Val("movie") || r.mediaType == Val("tv")
  {
    GetOpt(r.mediaType) == Some("movie") || GetOpt(r.mediaType) == Some("tv")
  }

  /** `search_titles`: without an API key, or when TMDB fails, the sample
      table answers; otherwise the movie and TV entries of the reply, in
      reply order, each given its poster URL. */
  method SearchTitles(apiKeyPresent: bool, query: string, reply: Reply<seq<Record>>) returns (results: seq<Record>)
    ensures !apiKeyPresent || reply.Failed? ==> results == MatchingSamples(SAMPLE_TITLES, Lower(query))
    ensures apiKeyPresent && reply.Ok200? ==>
      var found := Filter(IsMovieOrTv, reply.body);
      |results| == |found| &&
      forall k :: 0 <= k < |results| ==> results[k] == WithPosterUrl(found[k])
    ensures forall k :: 0 <= k < |results| ==> IsMovieOrTv(results[k])
  {
    SampleTitlesMovieOrTv();
    MatchingSamplesMovieOrTv(SAMPLE_TITLES, Lower(query));
    if !apiKeyPresent {
      results := SampleData(query);
      return;
    }
    match reply
    case Failed =>
      results := SampleData(query);
    case Ok200(body) =>
      var found := Filter(IsMovieOrTv, body);
      results := found;
      if results != [] {
        var i := 0;
        while i < |results|
          invariant 0 <= i <= |results| == |found|
          invariant forall k :: 0 <= k < i ==> results[k] == WithPosterUrl(found[k])
          invariant forall k :: i <= k < |results| ==> results[k] == found[k]
        {
          results := results[i := WithPosterUrl(results[i])];
          i := i + 1;
        }
      } else {
        results := [];
      }
      FilterMembers(IsMovieOrTv, body);
      forall k | 0 <= k < |results|
        ensures IsMovieOrTv(results[k])
      {
        assert found[k] in body && IsMovieOrTv(found[k]);
      }
  }

  // ---------------------------------------------------------------------
  // _get_sample_data
  // ---------------------------------------------------------------------

  /** `str.lower()` on one character, for the ASCII letters. */
  function LowerChar(c: char): char
  {
    if 'A' <= c <= 'Z' then (c as int + 32) as char else c
  }

  /** `str.lower()` (ASCII letters only). */
  function Lower(s: string): (r: string)
    ensures |r| == |s|
    ensures forall i :: 0 <= i < |s| ==> r[i] == LowerChar(s[i])
    ensures forall i :: 0 <= i < |r| ==> !('A' <= r[i] <= 'Z')
  {
    seq(|s|, i requires 0 <= i < |s| => LowerChar(s[i]))
  }

  predicate StartsWith(s: string, prefix: string)
  {
    |prefix| <= |s| && s[..|prefix|] == prefix
  }

  /** Python's `needle in hay` on strings. */
  predicate Contains(hay: string, needle: string)
    decreases |hay|
  {
    StartsWith(hay, needle) || (hay != [] && Contains(hay[1..], needle))
  }

  /** The sample table, keyed by lower-case title, in insertion order. */
  const SAMPLE_TITLES: seq<(string, seq<Record>)> := [
    ("attack on titan", [
      BLANK.(title := Val("Attack on Titan"), name := Val("Attack on Titan"), mediaType := Val("tv"), id := Val(20574),
             posterUrl := Val("https://image.tmdb.org/t/p/w342/1wnFLcuIbF3cBFRXBSe4EBkAJc4.jpg"),
             netflixCountries := Val(["Japan", "Italy", "Germany", "United States", "Canada"])),
      BLANK.(title := Val("Attack on Titan: The Final Season"), name := Val("Attack on Titan: The Final Season"),
             mediaType := Val("tv"), id := Val(95396),
             posterUrl := Val("https://image.tmdb.org/t/p/w342/qvf5xAJGOEzd1G9pwghSYvs06Jx.jpg"),
             netflixCountries := Val(["Japan", "Italy", "Germany", "France", "Spain"]))]),
    ("interstellar", [
      BLANK.(title := Val("Interstellar"), mediaType := Val("movie"), id := Val(157336),
             posterUrl := Val("https://image.tmdb.org/t/p/w342/gEU2QniY6ShO7h4mXrpMSfcAgJe.jpg"),
             netflixCountries := Val(["United States", "United Kingdom", "Canada", "Australia"]))]),
    ("inception", [
      BLANK.(title := Val("Inception"), mediaType := Val("movie"), id := Val(27205),
             posterUrl := Val("https://image.tmdb.org/t/p/w342/9gk7adHYeDMNNGceKPn30Up0HwU.jpg"),
             netflixCountries := Val(["United States", "United Kingdom", "France", "Japan"]))]),
    ("breaking bad", [
      BLANK.(title := Val("Breaking Bad"), name := Val("Breaking Bad"), mediaType := Val("tv"), id := Val(1396),
             posterUrl := Val("https://image.tmdb.org/t/p/w342/ggFHVNu6YYI5L9pIClnuVfmXoPE.jpg"),
             netflixCountries := Val(["United States", "Mexico", "Canada", "United Kingdom"]))])
  ]

  /** The title lists of `table` whose key contains `q`, concatenated in
      table order. */
  function MatchingSamples(table: seq<(string, seq<Record>)>, q: string): seq<Record>
  {
    if table == [] then []
    else
      var last := table[|table| - 1];
      MatchingSamples(table[..|table| - 1], q) + (if Contains(last.0, q) then last.1 else [])
  }

  /** All title lists of `table`, concatenated in table order. */
  function AllSamples(table: seq<(string, seq<Record>)>): seq<Record>
  {
    if table == [] then [] else AllSamples(table[..|table| - 1]) + table[|table| - 1].1
  }

  /** The loop of `_get_sample_data` over a table: extends the result with
      every list whose key contains the lower-cased query. */
  method CollectSamples(table: seq<(string, seq<Record>)>, query: string) returns (results: seq<Record>)
    ensures results == MatchingSamples(table, Lower(query))
  {
    var q := Lower(query);
    results := [];
    for i := 0 to |table|
      invariant results == MatchingSamples(table[..i], q)
    {
      assert table[..i + 1][..i] == table[..i];
      var (key, titles) := table[i];
      if Contains(key, q) {
        results := results + titles;
      }
    }
    assert table[..|table|] == table;
  }

  /** `_get_sample_data`: the matches from the built-in table. */
  method SampleData(query: string) returns (results: seq<Record>)
    ensures results == MatchingSamples(SAMPLE_TITLES, Lower(query))
  {
    results := CollectSamples(SAMPLE_TITLES, query);
  }

  /** Every key contains the empty string, so an empty query (or any query
      that lower-cases to "") yields every sample, in table order. */
  lemma {:induction false} EmptyQueryMatchesAll(table: seq<(string, seq<Record>)>)
    ensures MatchingSamples(table, "") == AllSamples(table)
  {
    if table != [] {
      EmptyQueryMatchesAll(table[..|table| - 1]);
      assert StartsWith(table[|table| - 1].0, "");
    }
  }

  /** Every record of every list of `table` is a movie or a TV show. */
  ghost predicate AllMovieOrTv(table: seq<(string, seq<Record>)>)
  {
    forall i, j :: 0 <= i < |table| && 0 <= j < |table[i].1| ==> IsMovieOrTv(table[i].1[j])
  }

  /** The sample table holds only movies and TV shows. */
  lemma SampleTitlesMovieOrTv()
    ensures AllMovieOrTv(SAMPLE_TITLES)
  {
    forall i, j | 0 <= i < |SAMPLE_TITLES| && 0 <= j < |SAMPLE_TITLES[i].1|
      ensures IsMovieOrTv(SAMPLE_TITLES[i].1[j])
    {
      assert SAMPLE_TITLES[i].1[j].mediaType in {Val("movie"), Val("tv")};
    }
  }

  /** Matching keeps whole lists of the table, so a table of movies and TV
      shows answers only movies and TV shows. */
  lemma {:induction false} MatchingSamplesMovieOrTv(table: seq<(string, seq<Record>)>, q: string)
    requires AllMovieOrTv(table)
    ensures forall k :: 0 <= k < |MatchingSamples(table, q)| ==> IsMovieOrTv(MatchingSamples(table, q)[k])
  {
    if table != [] {
      var init, last := table[..|table| - 1], table[|table| - 1];
      assert AllMovieOrTv(init) by {
        forall i, j | 0 <= i < |init| && 0 <= j < |init[i].1|
          ensures IsMovieOrTv(init[i].1[j])
        {
          assert init[i] == table[i];
        }
      }
      MatchingSamplesMovieOrTv(init, q);
      var head, tail := MatchingSamples(init, q), if Contains(last.0, q) then last.1 else [];
      assert MatchingSamples(table, q) == head + tail;
      forall k | 0 <= k < |head + tail|
        ensures IsMovieOrTv((head + tail)[k])
      {
        if k >= |head| {
          assert (head + tail)[k] == last.1[k - |head|];
        }
      }
    }
  }

  /** Matching ignores the case of ASCII letters in the query. */
  lemma {:induction false} SampleMatchingIgnoresCase(q1: string, q2: string)
    requires |q1| == |q2|
    requires forall i :: 0 <= i < |q1| ==> LowerChar(q1[i]) == LowerChar(q2[i])
    ensures MatchingSamples(SAMPLE_TITLES, Lower(q1)) == MatchingSamples(SAMPLE_TITLES, Lower(q2))
  {
    assert Lower(q1) == Lower(q2);
  }

  // ---------------------------------------------------------------------
  // display_results
  // ---------------------------------------------------------------------

  /** The displayed title: `title` when truthy, else `name` as `get` reads
      it with the default "Unknown". */
  function DisplayTitle(r: Record): (t: Option<string>)
    ensures Truthy(GetOpt(r.title)) ==> t == Some(r.title.value)
    ensures !Truthy(GetOpt(r.title)) && r.name.Val? ==> t == Some(r.name.value)
    ensures !Truthy(GetOpt(r.title)) && r.name.Missing? ==> t == Some("Unknown")
    ensures !Truthy(GetOpt(r.title)) && r.name.Null? ==> t == None
  {
    var title := GetOpt(r.title);
    if Truthy(title) then title else GetOr(r.name, "Unknown")
  }

  /** `result.get("release_date", result.get("first_air_date", ""))`: the
      air date is consulted only when `release_date` is absent. */
  function ReleaseDate(r: Record): (d: Option<string>)
    ensures r.releaseDate.Val? ==> d == Some(r.releaseDate.value)
    ensures r.releaseDate.Null? ==> d == None
    ensures r.releaseDate.Missing? ==> d == GetOr(r.firstAirDate, "")
  {
    match r.releaseDate
    case Missing => GetOr(r.firstAirDate, "")
    case Null => None
    case Val(date) => Some(date)
  }

  /** The displayed year: the first (at most) four characters of the
      release date, or "" when that date is empty or null. */
  function Year(r: Record): (y: string)
    ensures |y| <= 4
    ensures y != "" <==> Truthy(ReleaseDate(r))
    ensures y != "" ==> StartsWith(ReleaseDate(r).value, y)
    ensures y != "" ==> |y| == 4 || y == ReleaseDate(r).value
  {
    var date := ReleaseDate(r);
    if Truthy(date) then date.value[..if |date.value| < 4 then |date.value| else 4] else ""
  }

  /** One formatted entry: id and poster copied as `get` reads them, type
      defaulting to "unknown" and rating to 0 when the key is absent. */
  function Format(r: Record): (f: TitleSummary)
    ensures f.id == GetOpt(r.id) && f.poster == GetOpt(r.posterUrl)
    ensures f.title == DisplayTitle(r) && f.year == Year(r)
    ensures r.mediaType.Missing? ==> f.kind == Some("unknown")
    ensures !r.mediaType.Missing? ==> f.kind == GetOpt(r.mediaType)
    ensures r.voteAverage.Missing? ==> f.rating == Some(0.0)
    ensures !r.voteAverage.Missing? ==> f.rating == GetOpt(r.voteAverage)
    ensures IsMovieOrTv(r) ==> f.kind == Some("movie") || f.kind == Some("tv")
  {
    TitleSummary(GetOpt(r.id), DisplayTitle(r), GetOr(r.mediaType, "unknown"), Year(r),
                 GetOpt(r.posterUrl), GetOr(r.voteAverage, 0.0))
  }

  const NO_RESULTS_MESSAGE := "No results found."

  /** `display_results`: an empty input is a failure envelope; otherwise a
      success envelope with one formatted entry per record, in input order. */
  method DisplayResults(results: seq<Record>) returns (response: SearchEnvelope)
    ensures results == [] ==> response == SearchEnvelope(false, Some(NO_RESULTS_MESSAGE), [])
    ensures results != [] ==> response.success && response.message == None
    ensures results != [] ==> |response.data| == |results|
    ensures results != [] ==> forall i :: 0 <= i < |results| ==> response.data[i] == Format(results[i])
  {
    if results == [] {
      return SearchEnvelope(false, Some(NO_RESULTS_MESSAGE), []);
    }
    var formatted: seq<TitleSummary> := [];
    for i := 0 to |results|
      invariant |formatted| == i
      invariant forall k :: 0 <= k < i ==> formatted[k] == Format(results[k])
    {
      formatted := formatted + [Format(results[i])];
    }
    response := SearchEnvelope(true, None, formatted);
  }

  // ---------------------------------------------------------------------
  // Netflix countries of a watch-providers reply
  // ---------------------------------------------------------------------

  /** One `flatrate` provider entry; `provider_id` may be absent. */
  datatype Provider = Provider(providerId: Option<int>)

  /** One region of the reply's `results` object: its country code and its
      `flatrate` list (`None` when the key is absent, read as []). */
  datatype Region = Region(code: string, flatrate: Option<seq<Provider>>)

  /** Some flat-rate provider of the region is Netflix. */
  predicate OffersNetflix(r: Region)
    ensures r.flatrate.None? ==> !OffersNetflix(r)
    ensures OffersNetflix(r) <==> (r.flatrate.Some? &&
      exists i :: 0 <= i < |r.flatrate.value| && r.flatrate.value[i].providerId == Some(NETFLIX_PROVIDER_ID))
  {
    r.flatrate.Some? && exists p :: p in r.flatrate.value && p.providerId == Some(NETFLIX_PROVIDER_ID)
  }

  /** The names collected by the extraction loop, in region order. */
  function NetflixNames(regions: seq<Region>, countryMap: map<string, string>): seq<string>
  {
    if regions == [] then []
    else
      var last := regions[|regions| - 1];
      NetflixNames(regions[..|regions| - 1], countryMap)
        + (if OffersNetflix(last) then [CodeToCountryName(countryMap, last.code)] else [])
  }

  /** The loop shared by `get_netflix_countries` and `get_countries`: one
      name appended per region offering Netflix. */
  method CollectNetflixCountries(regions: seq<Region>, countryMap: map<string, string>) returns (countries: seq<string>)
    ensures countries == NetflixNames(regions, countryMap)
  {
    countries := [];
    for i := 0 to |regions|
      invariant countries == NetflixNames(regions[..i], countryMap)
    {
      assert regions[..i + 1][..i] == regions[..i];
      var region := regions[i];
      var providers := if region.flatrate.Some? then region.flatrate.value else [];
      var netflix := false;
      for j := 0 to |providers|
        invariant netflix <==> exists p :: p in providers[..j] && p.providerId == Some(NETFLIX_PROVIDER_ID)
      {
        assert providers[..j + 1] == providers[..j] + [providers[j]];
        if providers[j].providerId == Some(NETFLIX_PROVIDER_ID) {
          netflix := true;
        }
      }
      assert providers[..|providers|] == providers;
      if netflix {
        countries := countries + [CodeToCountryName(countryMap, region.code)];
      }
    }
    assert regions[..|regions|] == regions;
  }

  /** The indices of the regions that offer Netflix. */
  ghost function NetflixRegions(regions: seq<Region>): set<int>
  {
    set i | 0 <= i < |regions| && OffersNetflix(regions[i])
  }

  /** A name is collected exactly when some region offering Netflix maps
      to it. */
  lemma {:induction false} NetflixNamesMembership(regions: seq<Region>, countryMap: map<string, string>, name: string)
    ensures name in NetflixNames(regions, countryMap) <==>
      exists i :: 0 <= i < |regions| && OffersNetflix(regions[i]) && CodeToCountryName(countryMap, regions[i].code) == name
  {
    if regions != [] {
      var n := |regions| - 1;
      var init := regions[..n];
      NetflixNamesMembership(init, countryMap, name);
      if exists i :: 0 <= i < |regions| && OffersNetflix(regions[i]) && CodeToCountryName(countryMap, regions[i].code) == name {
        var i :| 0 <= i < |regions| && OffersNetflix(regions[i]) && CodeToCountryName(countryMap, regions[i].code) == name;
        if i < n {
          assert init[i] == regions[i];
        }
      }
      if name in NetflixNames(init, countryMap) {
        var i :| 0 <= i < |init| && OffersNetflix(init[i]) && CodeToCountryName(countryMap, init[i].code) == name;
        assert regions[i] == init[i];
      }
    }
  }

  /** Each region offering Netflix contributes exactly one name, and no
      other region contributes any. */
  lemma {:induction false} NetflixNamesCount(regions: seq<Region>, countryMap: map<string, string>)
    ensures |NetflixNames(regions, countryMap)| == |NetflixRegions(regions)|
  {
    if regions == [] {
      assert NetflixRegions(regions) == {};
    } else {
      var n := |regions| - 1;
      var init := regions[..n];
      NetflixNamesCount(init, countryMap);
      var before := NetflixRegions(init);
      if OffersNetflix(regions[n]) {
        assert NetflixRegions(regions) == before + {n};
        assert n !in before;
      } else {
        assert NetflixRegions(regions) == before;
      }
    }
  }

  // ---------------------------------------------------------------------
  // sorted() on country names
  // ---------------------------------------------------------------------

  /** Python's `<=` on strings: lexicographic by code point. */
  predicate LexLe(a: string, b: string)
    decreases |a|
  {
    a == [] || (b != [] && (a[0] < b[0] || (a[0] == b[0] && LexLe(a[1..], b[1..]))))
  }

  lemma {:induction false} LexLeTotal(a: string, b: string)
    ensures LexLe(a, b) || LexLe(b, a)
    decreases |a|
  {
    if a != [] && b != [] && a[0] == b[0] {
      LexLeTotal(a[1..], b[1..]);
    }
  }

  lemma {:induction false} LexLeAntisymmetric(a: string, b: string)
    requires LexLe(a, b) && LexLe(b, a)
    ensures a == b
    decreases |a|
  {
    if a != [] {
      LexLeAntisymmetric(a[1..], b[1..]);
      assert a == [a[0]] + a[1..] && b == [b[0]] + b[1..];
    }
  }

  lemma {:induction false} LexLeTransitive(a: string, b: string, c: string)
    requires LexLe(a, b) && LexLe(b, c)
    ensures LexLe(a, c)
    decreases |a|
  {
    if a != [] && a[0] == b[0] && b[0] == c[0] {
      LexLeTransitive(a[1..], b[1..], c[1..]);
    }
  }

  /** Each name is `<=` the next one. */
  predicate Ascending(s: seq<string>)
  {
    forall i :: 0 <= i < |s| - 1 ==> LexLe(s[i], s[i + 1])
  }

  /** Every name is `<=` every later one. */
  ghost predicate Sorted(s: seq<string>)
  {
    forall i, j :: 0 <= i < j < |s| ==> LexLe(s[i], s[j])
  }

  function InsertName(x: string, s: seq<string>): (r: seq<string>)
    ensures multiset(r) == multiset(s) + multiset{x}
    ensures |r| == |s| + 1 && (r[0] == x || (s != [] && r[0] == s[0]))
    ensures Ascending(s) ==> Ascending(r)
  {
    if s == [] then [x]
    else if LexLe(x, s[0]) then [x] + s
    else
      LexLeTotal(x, s[0]);
      assert s == [s[0]] + s[1..];
      [s[0]] + InsertName(x, s[1..])
  }

  /** `sorted(countries)`: the names in ascending order. */
  function SortNames(s: seq<string>): (r: seq<string>)
    ensures multiset(r) == multiset(s)
    ensures Ascending(r)
  {
    if s == [] then []
    else
      assert s == [s[0]] + s[1..];
      InsertName(s[0], SortNames(s[1..]))
  }

  lemma {:induction false} AscendingIsSorted(s: seq<string>)
    requires Ascending(s)
    ensures Sorted(s)
  {
    if |s| > 1 {
      AscendingIsSorted(s[1..]);
      forall j | 1 < j < |s|
        ensures LexLe(s[0], s[j])
      {
        assert LexLe(s[1..][0], s[1..][j - 1]);
        LexLeTransitive(s[0], s[1], s[j]);
      }
    }
  }

  /** The first name of a sorted list is `<=` every name in it. */
  lemma SortedHeadIsLeast(s: seq<string>, v: string)
    requires Sorted(s) && v in s
    ensures LexLe(s[0], v)
  {
    var i :| 0 <= i < |s| && s[i] == v;
    if i == 0 {
      LexLeTotal(v, v);
    }
  }

  lemma MultisetTail(s: seq<string>)
    requires s != []
    ensures multiset(s[1..]) == multiset(s) - multiset{s[0]}
  {
    assert s == [s[0]] + s[1..];
  }

  /** Two sorted lists with the same names are the same list: the sorted
      output does not depend on the order in which the regions came. */
  lemma {:induction false} SortedUnique(a: seq<string>, b: seq<string>)
    requires Sorted(a) && Sorted(b) && multiset(a) == multiset(b)
    ensures a == b
    decreases |a|
  {
    if a == [] {
      assert |b| == |multiset(b)| == 0;
    } else {
      assert |b| == |multiset(b)| == |multiset(a)| == |a|;
      assert a[0] in multiset(b) && b[0] in multiset(a);
      SortedHeadIsLeast(a, b[0]);
      SortedHeadIsLeast(b, a[0]);
      LexLeAntisymmetric(a[0], b[0]);
      MultisetTail(a);
      MultisetTail(b);
      assert Sorted(a[1..]) && Sorted(b[1..]);
      SortedUnique(a[1..], b[1..]);
      assert a == [a[0]] + a[1..] && b == [b[0]] + b[1..];
    }
  }

  /** The countries of a reply: the names of the regions offering Netflix,
      ascending, each such region counted once. */
  method NetflixCountriesSorted(regions: seq<Region>, countryMap: map<string, string>) returns (countries: seq<string>)
    ensures Sorted(countries)
    ensures multiset(countries) == multiset(NetflixNames(regions, countryMap))
    ensures |countries| == |NetflixRegions(regions)|
    ensures forall name :: name in countries <==>
      exists i :: 0 <= i < |regions| && OffersNetflix(regions[i]) && CodeToCountryName(countryMap, regions[i].code) == name
  {
    var collected := CollectNetflixCountries(regions, countryMap);
    countries := if collected != [] then SortNames(collected) else [];
    AscendingIsSorted(countries);
    NetflixNamesCount(regions, countryMap);
    assert |countries| == |multiset(countries)| == |multiset(collected)| == |collected|;
    forall name
      ensures name in countries <==>
        exists i :: 0 <= i < |regions| && OffersNetflix(regions[i]) && CodeToCountryName(countryMap, regions[i].code) == name
    {
      NetflixNamesMembership(regions, countryMap, name);
      assert name in countries <==> name in multiset(countries);
      assert name in collected <==> name in multiset(collected);
    }
  }

  /** `get_countries`: a success envelope with the sorted Netflix countries
      for a 200 reply, a failure envelope with no data otherwise. */
  method GetCountries(reply: Reply<seq<Region>>, countryMap: map<string, string>) returns (response: CountriesEnvelope)
    ensures response.success <==> reply.Ok200?
    ensures reply.Failed? ==> response.data == []
    ensures reply.Ok200? ==> response.data == SortNames(NetflixNames(reply.body, countryMap))
  {
    match reply
    case Failed =>
      response := CountriesEnvelope(false, []);
    case Ok200(regions) =>
      var countries := NetflixCountriesSorted(regions, countryMap);
      var expected := SortNames(NetflixNames(regions, countryMap));
      AscendingIsSorted(expected);
      SortedUnique(countries, expected);
      response := CountriesEnvelope(true, countries);
  }

  /** `if not title_id`: absent, null and 0 are all falsy. */
  predicate HasTitleId(r: Record)
    ensures r.id.Missing? || r.id.Null? ==> !HasTitleId(r)
    ensures HasTitleId(r) <==> GetOpt(r.id).Some? && GetOpt(r.id).value != 0
  {
    r.id.Val? && r.id.value != 0
  }

  /** `get_netflix_countries`: without an API key the record's own
      `netflix_countries` (default [], `null` stays `None`); without an id
      []; otherwise the sorted Netflix countries of a 200 reply, or []. */
  method GetNetflixCountries(apiKeyPresent: bool, title: Record, reply: Reply<seq<Region>>, countryMap: map<string, string>)
    returns (countries: Option<seq<string>>)
    ensures !apiKeyPresent ==> countries == GetOr(title.netflixCountries, [])
    ensures apiKeyPresent && (!HasTitleId(title) || reply.Failed?) ==> countries == Some([])
    ensures apiKeyPresent && HasTitleId(title) && reply.Ok200? ==>
      countries == Some(SortNames(NetflixNames(reply.body, countryMap)))
  {
    if !apiKeyPresent {
      return GetOr(title.netflixCountries, []);
    }
    if !HasTitleId(title) {
      return Some([]);
    }
    var response := GetCountries(reply, countryMap);
    countries := Some(response.data);
  }
}
