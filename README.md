# Netflix title finder, modelled in Dafny

The application looks up a movie or TV title and shows the countries where
Netflix streams it. It has two halves:

- **The backend (`NetflixTitleFinder`)** searches TMDB, or a built-in table of
  sample titles when no API key is configured or TMDB fails. It formats the
  hits into a `{success, message, data}` envelope. It also collects, from a
  watch-providers reply, the sorted names of the countries whose flat-rate
  providers include Netflix (provider 8).
- **The browser client** is a React app. Its REST client validates the query
  and turns the envelopes into a list or a thrown message. Its root component
  switches between three pages:
  - The **search page** submits the query, locks its form while waiting and
    shows the error.
  - The **results page** keeps the hits that have a poster and orders them
    by rating, best first, in a stable way.
  - The **details page** loads the title's countries and shows one of four
    panels.

The modules are:

| module | file | source |
|---|---|---|
| `Wrappers` | wrappers.dfy | `Option` and `Result` |
| `Wire` | wire.dfy | JSON records and key lookup |
| `Seqs` | seqs.dfy | a generic order-preserving filter |
| `Finder` | finder.dfy | `api/netflix_finder.py` |
| `ApiClient` | api_client.dfy | `src/services/api.js` |
| `ResultsView` | results_page.dfy | `src/pages/ResultsPage.jsx` |
| `Root` | app.dfy | `src/App.jsx` |
| `SearchView` | search_page.dfy | `src/pages/SearchPage.jsx` |
| `DetailsView` | details_page.dfy | `src/pages/DetailsPage.jsx` |

**Pure code** is modelled as datatypes, functions and lemmas. This covers the
REST client, the results page, and the backend's lookups and filter.

**Code that updates state step by step** keeps its form:

- The backend's `for` loops are methods with loop invariants. Each is proved
  equal to a specification function.
- The state hooks of the three components are classes. Their fields are the
  `useState` variables, and their methods are the handlers.
- Each `async` handler is split at its `await` into two methods: the part
  before the request, and the part after it settles.

**Inputs from outside** are parameters:

- every TMDB reply and every `fetch` result;
- whether an API key is configured;
- the country-name map;
- the page's host name.

A Python `dict.get` on a key that may be absent or hold `null` is modelled
with `Wire.Field` (`Missing`, `Null` or `Val`). This keeps `get(k, default)`
(the default replaces an absent key only) apart from `get(k)`.

## Notes on the source

- Once a load has finished, the details page's "not currently available"
  warning (src/pages/DetailsPage.jsx:196-199) cannot be drawn.
  `fetchCountriesForTitle` throws on an empty list
  (src/services/api.js:47-49), and every failure leaves a non-empty error.
  `DetailsView.DetailsPage.EndLoad` and `DetailsView.LoadRepeatedly` prove
  this.
- `search_titles` returns only records whose `media_type` is "movie" or "tv",
  both from TMDB and from the sample table
  (api/netflix_finder.py:87-89). `display_results` copies that value into
  `type` (api/netflix_finder.py:286-303), so its "unknown" default is never
  used on a search answer. `Finder.SearchTitles`,
  `Finder.MatchingSamplesMovieOrTv` and `Finder.Format` prove this.

## Model

| member | source | states |
|---|---|---|
| Finder.CodeToCountryName | api/netflix_finder.py:157-167 | The mapped name for a known code; the code itself otherwise. |
| Finder.PosterUrl | api/netflix_finder.py:169-181 | There is a URL exactly when the path is non-empty. The URL is the image prefix followed by the path, and the path can be read back from it. |
| Finder.WithPosterUrl | api/netflix_finder.py:93-96 | Only `poster_url` changes. It is a URL exactly when `poster_path` is truthy, and `null` otherwise. The URL is the image prefix followed by the path. Whether the record is a movie or TV show is unchanged. |
| Finder.IsMovieOrTv | api/netflix_finder.py:87-89 | A record passes exactly when `media_type` is present and is "movie" or "tv"; an absent or null type never passes. |
| Finder.SearchTitles | api/netflix_finder.py:64-109 | With no API key, or a failed TMDB reply, the answer is the sample matches for the lower-cased query. Otherwise it keeps only the movie and TV entries, in reply order. Each entry gets the poster URL of its `poster_path` and nothing else changes. On every branch, every returned record is a movie or a TV show. |
| Finder.Lower | api/netflix_finder.py:263 | Lower-casing keeps the length and maps each character on its own. No upper-case ASCII letter is left. |
| Finder.CollectSamples | api/netflix_finder.py:263-270 | For any table, the loop's result equals `MatchingSamples`: the lists whose key contains the lower-cased query, concatenated in table order. |
| Finder.SampleData | api/netflix_finder.py:183-270 | The sample answer is exactly the built-in table's matches for the lower-cased query. |
| Finder.SampleTitlesMovieOrTv | api/netflix_finder.py:187-261 | Every record of the sample table is a movie or a TV show. |
| Finder.MatchingSamplesMovieOrTv | api/netflix_finder.py:263-268 | Matching copies whole lists of the table, so a table of movies and TV shows answers only movies and TV shows, for every query. |
| Finder.EmptyQueryMatchesAll | api/netflix_finder.py:266-268 | The empty query matches every key, so it yields every sample in table order. |
| Finder.SampleMatchingIgnoresCase | api/netflix_finder.py:263-267 | Two queries that differ only in ASCII letter case get the same samples. |
| Finder.DisplayTitle | api/netflix_finder.py:288 | Gives `title` when it is truthy. Otherwise it gives `name`: "Unknown" when `name` is absent, and null when `name` is null. |
| Finder.ReleaseDate | api/netflix_finder.py:290 | Gives `release_date` when the key is present, even if it is null. `first_air_date` (default "") is used only when `release_date` is absent. |
| Finder.Year | api/netflix_finder.py:290-291 | At most four characters. Non-empty exactly when the date is non-empty. A prefix of the date: all of it when the date is shorter than four characters, otherwise its first four. |
| Finder.Format | api/netflix_finder.py:286-303 | `id` and `poster` are copied as `get` reads them. `type` defaults to "unknown" and `rating` to 0, both only for an absent key. `title` and `year` are as above. A movie or TV record keeps "movie" or "tv" as its `type`. |
| Finder.DisplayResults | api/netflix_finder.py:272-305 | An empty input gives `success` false, "No results found." and no data. Otherwise `success` is true, with exactly one formatted entry per record, in input order. |
| Finder.OffersNetflix | api/netflix_finder.py:142-146 | A region offers Netflix exactly when its `flatrate` list is present and some entry's `provider_id` is 8. A region without `flatrate` never does. |
| Finder.CollectNetflixCountries | api/netflix_finder.py:138-147 | The nested loops collect exactly `NetflixNames`: one name per region, in region order, for each region whose flat-rate list holds provider 8. |
| Finder.NetflixNamesMembership | api/netflix_finder.py:141-147 | A name is collected if and only if some region offering Netflix maps to it. |
| Finder.NetflixNamesCount | api/netflix_finder.py:141-147 | The number of names equals the number of regions offering Netflix, so each such region contributes exactly one name. |
| Finder.LexLeTotal | api/netflix_finder.py:149 | Python's string `<=` (by code point) is total. |
| Finder.LexLeAntisymmetric | api/netflix_finder.py:149 | Python's string `<=` is antisymmetric. |
| Finder.LexLeTransitive | api/netflix_finder.py:149 | Python's string `<=` is transitive. |
| Finder.InsertName | api/netflix_finder.py:149 | Inserting a name adds exactly that name and keeps an ascending list ascending. |
| Finder.SortNames | api/netflix_finder.py:149 | `sorted` returns a permutation of its input, in ascending order. |
| Finder.AscendingIsSorted | api/netflix_finder.py:149 | If each name is `<=` the next, then every name is `<=` every later one. |
| Finder.SortedUnique | api/netflix_finder.py:149 | Two sorted lists holding the same names are equal, so the result does not depend on the order of the regions. |
| Finder.NetflixCountriesSorted | api/netflix_finder.py:138-149 | The countries are sorted and are a permutation of the collected names. There is one per region offering Netflix, and a name occurs if and only if such a region maps to it. |
| Finder.GetCountries | api/netflix_finder.py:307-345 | `success` is true exactly for a 200 reply, and a failure carries no data. On success the data is the sorted Netflix countries. |
| Finder.GetNetflixCountries | api/netflix_finder.py:111-155 | With no key, the record's own `netflix_countries` (default [], null stays null). With a missing or zero id, or a failed reply, []. Otherwise the sorted Netflix countries. |
| Finder.HasTitleId | api/netflix_finder.py:125-128 | An id passes exactly when `get` reads a non-zero value; an absent or null id never passes. |
| ApiClient.ApiBaseUrl | src/services/api.js:3-8 | "http://localhost:5000/api" if and only if the host is "localhost" or "127.0.0.1"; "/api" if and only if it is any other host. |
| ApiClient.TrimStart | src/services/api.js:13 | Drops exactly the leading whitespace: the result is a suffix, everything cut is whitespace, and the result does not start with whitespace. |
| ApiClient.TrimEnd | src/services/api.js:13 | Drops exactly the trailing whitespace: the mirror image of `TrimStart`. |
| ApiClient.Trim | src/services/api.js:13-22 | The result is a contiguous slice with only whitespace around it, and it has no whitespace at either end. |
| ApiClient.TrimEmptyIff | src/services/api.js:13 | A query trims to "" if and only if it is all whitespace. |
| ApiClient.TrimIdempotent | src/services/api.js:13-22 | Trimming twice is the same as trimming once. |
| ApiClient.SearchRequest | src/services/api.js:13-22 | Fails with "Please enter a title" if and only if the query is all whitespace. Otherwise the request body is the trimmed, non-empty query. |
| ApiClient.InterpretSearch | src/services/api.js:25-35 | Ok if and only if `success` holds and the data is non-empty, and then it returns the data unchanged. On failure it gives the server's message if that is non-empty, else "Search failed". On empty data it gives "No results found". An error is never empty. |
| ApiClient.SearchTitles | src/services/api.js:12-36 | An all-whitespace query fails before any request. Otherwise the backend sees only the trimmed query: a rejected fetch passes its message through, and an envelope is read by `InterpretSearch`. A returned list is never empty. |
| ApiClient.SearchSeesTrimmedQuery | src/services/api.js:22 | Two queries that trim to the same text get the same outcome. |
| ApiClient.FetchCountries | src/services/api.js:41-51 | `success` is checked first: on failure the answer is always "Could not fetch availability data", whatever the server said. Empty data gives "No Netflix availability found for this title". Otherwise the list is returned unchanged. |
| ApiClient.FetchCountriesForTitle | src/services/api.js:38-52 | A rejected fetch passes its message through. An envelope is read by `FetchCountries`. A returned list is never empty. |
| ResultsView.WithPostersExact | src/pages/ResultsPage.jsx:20 | The filtered list holds exactly the entries with a truthy poster, each as many times as the input holds it, in their original relative order. |
| ResultsView.WithPostersUnique | src/pages/ResultsPage.jsx:20 | Any subsequence of the input that keeps every entry with a truthy poster as often as the input has it, and no other entry, is the filtered list. So the facts above determine the list. |
| ResultsView.RepeatedPosterKept | src/pages/ResultsPage.jsx:20 | A title listed twice with a poster is kept twice. |
| Seqs.FilterCount | src/pages/ResultsPage.jsx:20 | `filter` keeps every occurrence of an element that passes the test and drops every occurrence of one that fails it. |
| Seqs.FilterUnique | src/pages/ResultsPage.jsx:20 | The filter is the only subsequence of its input that has those occurrence counts. |
| ResultsView.WithPosters | src/pages/ResultsPage.jsx:20 | The filtered list is no longer than the input. Every kept entry comes from the input and has a truthy poster, and every input entry with a truthy poster is kept. |
| ResultsView.Rating | src/pages/ResultsPage.jsx:21 | The sort key is the rating when there is one and 0 when it is missing. |
| ResultsView.WithPostersIdempotent | src/pages/ResultsPage.jsx:20 | Filtering twice is the same as filtering once. |
| ResultsView.Insert | src/pages/ResultsPage.jsx:21 | Inserting an entry makes the list one longer. |
| ResultsView.InsertPermutes | src/pages/ResultsPage.jsx:21 | Inserting an entry adds exactly that entry: the multiset grows by it alone. |
| ResultsView.InsertRatedAt | src/pages/ResultsPage.jsx:21 | Inserting an entry puts it first among the entries of its rating and leaves every other rating's entries in order. |
| ResultsView.InsertDescending | src/pages/ResultsPage.jsx:21 | Inserting into a list ordered by rating keeps it ordered. |
| ResultsView.SortByRating | src/pages/ResultsPage.jsx:21 | The sorted list is a permutation of its input, with the effective ratings (`rating \|\| 0`) never increasing. |
| ResultsView.SortByRatingStable | src/pages/ResultsPage.jsx:21 | At every rating, the entries with that rating keep their input order. |
| ResultsView.StableOrderUnique | src/pages/ResultsPage.jsx:21 | Two lists ordered by rating, with the same entries in the same order at every rating, are equal. |
| ResultsView.SortByRatingCharacterized | src/pages/ResultsPage.jsx:21 | A list is the sort's output if and only if it is ordered by rating and keeps the input order at every rating. So every stable sort with this comparator, as `Array.prototype.sort` must be, gives the same list. |
| ResultsView.SortByRatingIdempotent | src/pages/ResultsPage.jsx:21 | Sorting a sorted list changes nothing. |
| ResultsView.Shown | src/pages/ResultsPage.jsx:20-21 | The cards are a permutation of the filtered list, ordered by rating. A title is a card if and only if it is in the input and has a poster. |
| ResultsView.Render | src/pages/ResultsPage.jsx:23-203 | Six skeletons while loading. Otherwise it shows the cards and their count: "title" if and only if the count is 1, else "titles". The no-posters message appears if and only if no input entry has a poster. |
| ResultsView.OnePosterOneCard | src/pages/ResultsPage.jsx:20 | Of one entry with a poster and one without, only the first becomes a card. |
| ResultsView.RatingOrderExample | src/pages/ResultsPage.jsx:21 | Ratings null, 7.0 and 9.2 are shown as 9.2, 7.0, then the unrated entry. |
| Root.App.constructor | src/App.jsx:11-14 | The app starts on "search", with no results, no selection and `isLoading` false. |
| Root.App.HandleSearchResults | src/App.jsx:16-19 | Stores the list and goes to "results". The selection and the loading flag are unchanged. |
| Root.App.HandleSelectTitle | src/App.jsx:21-24 | Stores the title and goes to "details". The results and the loading flag are unchanged. |
| Root.App.HandleBackToSearch | src/App.jsx:26-30 | Goes to "search" and clears both the results and the selection. |
| Root.App.HandleBackToResults | src/App.jsx:32-35 | Goes to "results", keeps the results and clears the selection. |
| Root.App.HandleLoading | src/App.jsx:14 | `setIsLoading` changes the flag and nothing else. |
| Root.App.Visible | src/App.jsx:47-90 | At most one page is drawn, and only the current one. The details page is drawn only with a selection. Under `Valid()` exactly the current page is drawn. |
| Root.App.ResultsScreen | src/App.jsx:71-76 | The results page is given the stored list and the loading flag. Unless loading, it lists the poster cards of that list. |
| Root.App.Step | src/App.jsx:16-88 | Each child callback has its handler's effect and leaves the other fields as they were: new results keep the selection, a selection keeps the results, turning loading off changes nothing else, and only that callback touches the loading flag. The details page stays backed by a selection, and the loading flag is never raised. |
| Root.App.Run | src/App.jsx:11-35 | After any sequence of callbacks, the page invariant holds, exactly the current page is drawn, `isLoading` is still false, and the results page lists its cards rather than skeletons. |
| Root.NavigationRoundTrip | src/App.jsx:11-35 | Going search, results, details, back, back shows the same list on the way back. It ends with page, results and selection as at the start. |
| SearchView.SearchPage.constructor | src/pages/SearchPage.jsx:17-19 | Starts with query "", not loading, and error "". |
| SearchView.SearchPage.Change | src/pages/SearchPage.jsx:89-91 | A change event (possible only on an enabled field) sets the query. The clear button is then visible if and only if the text is non-empty. |
| SearchView.SearchPage.InputDisabled | src/pages/SearchPage.jsx:91 | The text field is disabled exactly while loading. The field, the submit button and the clear button are always disabled together. |
| SearchView.SearchPage.SubmitDisabled | src/pages/SearchPage.jsx:107 | The submit button is disabled exactly while loading. |
| SearchView.SearchPage.SubmitLabel | src/pages/SearchPage.jsx:122 | The button reads "Searching..." exactly when it is disabled and "Search" exactly when it is enabled. |
| SearchView.SearchPage.ClearVisible | src/pages/SearchPage.jsx:124 | The clear button is drawn exactly when the query is non-empty. |
| SearchView.SearchPage.ClearDisabled | src/pages/SearchPage.jsx:129 | The clear button is disabled exactly while loading, that is, exactly while the submit button reads "Searching...". |
| SearchView.SearchPage.ErrorShown | src/pages/SearchPage.jsx:144 | The alert is drawn exactly when the error is non-empty. In a valid state it is never drawn while the form is locked. |
| SearchView.SearchPage.Submit | src/pages/SearchPage.jsx:21-24 | Only an enabled form submits. Loading goes on and the error is cleared. The field and the button become disabled (lines 91 and 107) and the label reads "Searching..." (line 122). The current query is sent. |
| SearchView.SearchPage.Complete | src/pages/SearchPage.jsx:26-35 | On a list, `onSearchResults` gets exactly that list and the error stays "". On a thrown message, the error becomes that message, or "An error occurred during search" if it is empty, and the root's page and results are unchanged. Either way loading ends, the form is re-enabled, and the root's loading flag is false. The alert (line 144) shows if and only if the search failed. |
| SearchView.SearchPage.Clear | src/pages/SearchPage.jsx:37-40 | The clear button, which is visible and enabled (lines 124-129), resets the query and the error. Loading is untouched. |
| SearchView.TypeAndSearch | src/pages/SearchPage.jsx:21-35 | Typing and submitting an all-whitespace query leaves "Please enter a title" in the alert. The root's page does not change, and loading ends false. |
| DetailsView.DetailsPage.constructor | src/pages/DetailsPage.jsx:21-23 | Starts with no countries, loading, and error "", so the spinner and "..." show. |
| DetailsView.DetailsPage.Panel | src/pages/DetailsPage.jsx:179-244 | Exactly one panel, in priority order: spinner if loading; else the info alert with the error if there is one; else the warning for an empty list; else the map with one chip per country, in list order. |
| DetailsView.DetailsPage.AvailableCount | src/pages/DetailsPage.jsx:171 | "..." if and only if loading; otherwise the number of countries. |
| DetailsView.DetailsPage.BeginLoad | src/pages/DetailsPage.jsx:26-31 | Loading goes on and the error is cleared. The previous countries are kept. The request names the title's id and type. |
| DetailsView.DetailsPage.EndLoad | src/pages/DetailsPage.jsx:30-37 | A list replaces the countries and the map and chips show. A thrown message, or "Failed to load availability data" if it is empty, becomes the error, and the countries stay. Loading ends either way, and the warning panel is never what replaces the spinner. |
| DetailsView.LoadRepeatedly | src/pages/DetailsPage.jsx:25-41 | After any number of loads run one after another, the page is settled and never shows the "not available" warning. |

## Left out

- **HTTP and JSON.** The TMDB requests, the browser's `fetch`, and JSON encoding and decoding are not modelled; replies are parameters. `Finder.Reply.Failed` stands for both a non-200 status and an exception, which every backend caller treats alike.
- **Environment and files.** The API key from the environment and the country map loaded from a file are parameters. The backend's console output is left out.
- **Request URLs.** The TMDB URLs, including the `media_type` default "movie" that only shapes the providers URL, are not modelled.
- **Plumbing and presentation files.** `src/api_server.py`, `api/search.py`, `api/health.py` and the countries handler are HTTP plumbing that repeats the core checks. `src/components/WorldMap.jsx` (a foreign map library) and `src/theme/muiTheme.js` are not part of this model, and neither are animations and layout.
- Finder.SearchTitles: a reply whose `results` key holds `null` raises inside the `try` and falls back to sample data. The model takes the reply's list directly, so this case is not modelled.
- Finder.CollectNetflixCountries: a region whose `flatrate` is `null` (not absent) raises inside the `try`, making `get_netflix_countries` return [] and `get_countries` a failure envelope. The model reads only an absent `flatrate` as []. The regions are given as a sequence in the JSON object's key order.
- Finder.Lower: only ASCII letters are lower-cased. Python's full Unicode case mapping is not modelled.
- ApiClient.SearchTitles: an envelope with `success` true but no `data` array throws a `TypeError` in the browser. The model's envelope always carries a list, so this case is not modelled.
- ResultsView.SortByRating: ratings are exact `real` numbers. NaN and floating-point rounding are not modelled.
- **Card display.** The card's display values (`rating / 2`, `toFixed(1)`, the year and type labels) and the details header (the type chip, "Movie" versus "TV Series") are not modelled.
- DetailsView.DetailsPage.EndLoad: one load is in flight at a time. The effect has no cancellation, so a stale response could overwrite a newer one when the title changes mid-load; the model does not cover that interleaving.
- Root.App.Run: callbacks arrive as a sequence of `Root.Event`s. `onLoading` appears only as `LoadingOff`, because the only call of `onLoading` passes `false` (src/pages/SearchPage.jsx:33).
- SearchView.SearchPage.Change: the browser's disabled controls deliver no events while loading. The model states this as the preconditions of `Change`, `Submit` and `Clear`.
- **Input arrays.** Not mutating the input arrays is inherent in the model: every function returns a new sequence.
