/** The JSON records exchanged between the Python backend and the browser
    client, and the dictionary-lookup semantics both sides rely on. */
module Wire {
  import opened Wrappers

  /** One key of a JSON object (a Python dict), as seen by `get`: the key is
      absent, present with `null`, or present with a value. */
  datatype Field<+T> = Missing | Null | Val(value: T)

  /** `d.get(key)`: absent and `null` both read as `None`. */
  function GetOpt<T>(f: Field<T>): Option<T>
  {
    if f.Val? then Some(f.value) else None
  }

  /** `d.get(key, default)`: the default replaces an absent key only; a
      present `null` stays `None`. */
  function GetOr<T>(f: Field<T>, default: T): Option<T>
  {
    match f
    case Missing => Some(default)
    case Null => None
    case Val(v) => Some(v)
  }

  /** Truthiness of an optional string in both Python and JavaScript:
      present and not empty. */
  predicate Truthy(s: Option<string>)
  {
    s.Some? && s.value != ""
  }

  /** JavaScript's `message || fallback` on a string. */
  function OrElse(message: string, fallback: string): string
  {
    if message != "" then message else fallback
  }

  /** One entry of the search endpoint's `data` list (the formatted record of
      `display_results`), which the client passes around unchanged. `kind` is
      the JSON key `type`; `title`, `kind` and `rating` may be `null` when the
      TMDB record held `null` there. */
  datatype TitleSummary = TitleSummary(
    id: Option<int>,
    title: Option<string>,
    kind: Option<string>,
    year: string,
    poster: Option<string>,
    rating: Option<real>)

  /** The body of `POST /api/search`. */
  datatype SearchEnvelope = SearchEnvelope(success: bool, message: Option<string>, data: seq<TitleSummary>)

  /** The body of `GET /api/countries/<id>/<type>`. */
  datatype CountriesEnvelope = CountriesEnvelope(success: bool, data: seq<string>)
}
