/** The browser's REST client: base-URL selection, query validation, and the
    interpretation of the two endpoints' `{success, message, data}` envelopes
    into a non-empty list or a thrown message. The awaited `fetch` is
    represented by its parsed body (for `fetchCountriesForTitle`) or by the
    backend as a function from the request's `query` to that body (for
    `searchTitles`). */
module ApiClient {
  import opened Wrappers
  import opened Wire

  const LOCAL_API_BASE := "http://localhost:5000/api"
  const RELATIVE_API_BASE := "/api"

  /** `getApiBaseUrl`, with `window.location.hostname` as a parameter: the
      development server for a loopback host, the same-origin path otherwise. */
  function ApiBaseUrl(hostname: string): (url: string)
    ensures url == LOCAL_API_BASE <==> hostname == "localhost" || hostname == "127.0.0.1"
    ensures url == RELATIVE_API_BASE <==> !(hostname == "localhost" || hostname == "127.0.0.1")
  {
    if hostname == "localhost" || hostname == "127.0.0.1" then LOCAL_API_BASE else RELATIVE_API_BASE
  }

  // ---------------------------------------------------------------------
  // String.prototype.trim
  // ---------------------------------------------------------------------

  /** The characters `trim` removes: ECMAScript WhiteSpace (TAB, VT, FF,
      ZWNBSP and the Unicode space separators) and LineTerminator (LF, CR,
      LS, PS). */
  predicate IsWhitespace(c: char)
  {
    c == '\t' || c == '\U{000B}' || c == '\U{000C}' || c == ' ' || c == '\U{00A0}' || c == '\U{FEFF}'
    || c == '\n' || c == '\r' || c == '\U{2028}' || c == '\U{2029}'
    || c == '\U{1680}' || ('\U{2000}' <= c <= '\U{200A}') || c == '\U{202F}' || c == '\U{205F}' || c == '\U{3000}'
  }

  ghost predicate AllWhitespace(s: string)
  {
    forall i :: 0 <= i < |s| ==> IsWhitespace(s[i])
  }

  /** `s` with its leading whitespace removed. */
  function TrimStart(s: string): (r: string)
    ensures |r| <= |s| && r == s[|s| - |r|..]
    ensures forall k :: 0 <= k < |s| - |r| ==> IsWhitespace(s[k])
    ensures r != [] ==> !IsWhitespace(r[0])
  {
    if s != [] && IsWhitespace(s[0]) then TrimStart(s[1..]) else s
  }

  /** `s` with its trailing whitespace removed. */
  function TrimEnd(s: string): (r: string)
    ensures |r| <= |s| && r == s[..|r|]
    ensures forall k :: |r| <= k < |s| ==> IsWhitespace(s[k])
    ensures r != [] ==> !IsWhitespace(r[|r| - 1])
  {
    if s != [] && IsWhitespace(s[|s| - 1]) then TrimEnd(s[..|s| - 1]) else s
  }

  /** `s.trim()`: a contiguous slice of `s` with only whitespace around it
      and no whitespace at either of its own ends. */
  function Trim(s: string): (r: string)
    ensures exists i :: 0 <= i <= |s| - |r| && r == s[i..i + |r|] && TrimmedAt(s, i, |r|)
    ensures r != [] ==> !IsWhitespace(r[0]) && !IsWhitespace(r[|r| - 1])
  {
    var t := TrimStart(s);
    var r := TrimEnd(t);
    TrimParts(s, t, r);
    assert r != [] ==> r[0] == t[0];
    r
  }

  /** Trimming the end of the trimmed start leaves a slice of `s` that
      starts where the leading whitespace ends. */
  lemma TrimParts(s: string, t: string, r: string)
    requires |t| <= |s| && t == s[|s| - |t|..]
    requires |r| <= |t| && r == t[..|r|]
    requires forall k :: |r| <= k < |t| ==> IsWhitespace(t[k])
    requires forall k :: 0 <= k < |s| - |t| ==> IsWhitespace(s[k])
    ensures |s| - |t| + |r| <= |s|
    ensures r == s[|s| - |t|..|s| - |t| + |r|]
    ensures TrimmedAt(s, |s| - |t|, |r|)
  {
    var i := |s| - |t|;
    assert t == s[i..] && r == t[..|r|];
    forall j | 0 <= j < |r|
      ensures r[j] == s[i + j]
    {
      assert r[j] == t[j] == s[i + j];
    }
    assert r == s[i..i + |r|];
    forall k | i + |r| <= k < |s|
      ensures IsWhitespace(s[k])
    {
      assert s[k] == t[k - i];
    }
  }

  /** Everything of `s` outside `s[i..i + n]` is whitespace. */
  ghost predicate TrimmedAt(s: string, i: nat, n: nat)
    requires i + n <= |s|
  {
    (forall k :: 0 <= k < i ==> IsWhitespace(s[k])) && (forall k :: i + n <= k < |s| ==> IsWhitespace(s[k]))
  }

  /** A string trims to "" exactly when it is all whitespace. */
  lemma TrimEmptyIff(s: string)
    ensures Trim(s) == "" <==> AllWhitespace(s)
  {
    var r := Trim(s);
    var i :| 0 <= i <= |s| - |r| && r == s[i..i + |r|] && TrimmedAt(s, i, |r|);
    if r != "" {
      assert s[i] == r[0];
    }
  }

  /** Trimming twice is trimming once. */
  lemma TrimIdempotent(s: string)
    ensures Trim(Trim(s)) == Trim(s)
  {
    var r := Trim(s);
    var rr := Trim(r);
    var j :| 0 <= j <= |r| - |rr| && rr == r[j..j + |rr|] && TrimmedAt(r, j, |rr|);
    if r != [] {
      assert j == 0 && |rr| == |r|;
    }
  }

  // ---------------------------------------------------------------------
  // searchTitles
  // ---------------------------------------------------------------------

  const EMPTY_QUERY_MESSAGE := "Please enter a title"
  const SEARCH_FAILED_MESSAGE := "Search failed"
  const NO_RESULTS_MESSAGE := "No results found"

  /** The guard and the request body of `searchTitles`: an all-whitespace
      query throws before any request; otherwise the body carries the
      trimmed query. */
  function SearchRequest(query: string): (body: Result<string>)
    ensures body.Err? <==> AllWhitespace(query)
    ensures body.Err? ==> body.error == EMPTY_QUERY_MESSAGE
    ensures body.Ok? ==> body.value == Trim(query) && body.value != ""
  {
    TrimEmptyIff(query);
    if Trim(query) == "" then Err(EMPTY_QUERY_MESSAGE) else Ok(Trim(query))
  }

  /** The reply half of `searchTitles`: a failed envelope throws the server's
      message when it has one and "Search failed" otherwise; an empty list
      throws "No results found"; otherwise the list is returned unchanged. */
  function InterpretSearch(env: SearchEnvelope): (r: Result<seq<TitleSummary>>)
    ensures r.Ok? <==> env.success && env.data != []
    ensures r.Ok? ==> r.value == env.data
    ensures !env.success && Truthy(env.message) ==> r == Err(env.message.value)
    ensures !env.success && !Truthy(env.message) ==> r == Err(SEARCH_FAILED_MESSAGE)
    ensures env.success && env.data == [] ==> r == Err(NO_RESULTS_MESSAGE)
    ensures r.Err? ==> r.error != ""
  {
    if !env.success then Err(if Truthy(env.message) then env.message.value else SEARCH_FAILED_MESSAGE)
    else if |env.data| == 0 then Err(NO_RESULTS_MESSAGE)
    else Ok(env.data)
  }

  /** `searchTitles(query)` against a backend `server`, a function from the
      trimmed query to what the awaited `fetch` and `response.json()` give:
      the parsed envelope, or a rejection carrying its own message. Validation
      comes first, then one request carrying the trimmed query. A returned
      list is never empty. */
  function SearchTitles(query: string, server: string -> Result<SearchEnvelope>): (r: Result<seq<TitleSummary>>)
    ensures AllWhitespace(query) ==> r == Err(EMPTY_QUERY_MESSAGE)
    ensures !AllWhitespace(query) && server(Trim(query)).Err? ==> r == Err(server(Trim(query)).error)
    ensures !AllWhitespace(query) && server(Trim(query)).Ok? ==> r == InterpretSearch(server(Trim(query)).value)
    ensures r.Ok? ==> r.value != []
  {
    match SearchRequest(query)
    case Err(e) => Err(e)
    case Ok(body) =>
      match server(body)
      case Err(e) => Err(e)
      case Ok(env) => InterpretSearch(env)
  }

  /** Two queries that trim alike get the same answer: the backend never
      sees the surrounding whitespace. */
  lemma SearchSeesTrimmedQuery(q1: string, q2: string, server: string -> Result<SearchEnvelope>)
    requires Trim(q1) == Trim(q2)
    ensures SearchTitles(q1, server) == SearchTitles(q2, server)
  {
    TrimEmptyIff(q1);
    TrimEmptyIff(q2);
  }

  // ---------------------------------------------------------------------
  // fetchCountriesForTitle
  // ---------------------------------------------------------------------

  const UNAVAILABLE_MESSAGE := "Could not fetch availability data"
  const NO_AVAILABILITY_MESSAGE := "No Netflix availability found for this title"

  /** `fetchCountriesForTitle`: a failed envelope always throws the fixed
      message (any server message is ignored); success is checked before
      emptiness; a returned list is the server's list, never empty. */
  function FetchCountries(env: CountriesEnvelope): (r: Result<seq<string>>)
    ensures r.Ok? <==> env.success && env.data != []
    ensures r.Ok? ==> r.value == env.data
    ensures !env.success ==> r == Err(UNAVAILABLE_MESSAGE)
    ensures env.success && env.data == [] ==> r == Err(NO_AVAILABILITY_MESSAGE)
    ensures r.Err? ==> r.error != ""
  {
    if !env.success then Err(UNAVAILABLE_MESSAGE)
    else if |env.data| == 0 then Err(NO_AVAILABILITY_MESSAGE)
    else Ok(env.data)
  }

  /** `fetchCountriesForTitle(titleId, titleType)`, with `reply` what the
      awaited `fetch` and `response.json()` give: a rejection passes through
      with its own message (which may be empty); an envelope is interpreted
      by `FetchCountries`. A returned list is never empty. */
  function FetchCountriesForTitle(reply: Result<CountriesEnvelope>): (r: Result<seq<string>>)
    ensures reply.Err? ==> r == Err(reply.error)
    ensures reply.Ok? ==> r == FetchCountries(reply.value)
    ensures r.Ok? ==> r.value != []
  {
    match reply
    case Err(e) => Err(e)
    case Ok(env) => FetchCountries(env)
  }
}
