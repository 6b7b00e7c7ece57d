/** The details page of one title: the availability count in the header and
    the panel below it (spinner, info alert, "not available" warning, or the
    map with one chip per country). Loading is split at its `await`:
    `BeginLoad` runs when the effect fires, `EndLoad` once
    `fetchCountriesForTitle` has settled. One load is in flight at a time. */
module DetailsView {
  import opened Wrappers
  import opened Wire
  import ApiClient

  const FALLBACK_ERROR := "Failed to load availability data"

  /** The four panels, in the order the page tests for them. */
  datatype Panel =
    | Spinner
    | InfoAlert(message: string)
    | NotAvailableWarning
    | Availability(count: nat, chips: seq<string>)

  /** The header's "Available in … countries". */
  datatype CountLabel = Ellipsis | Number(n: nat)

  class DetailsPage {
    const title: TitleSummary
    var countries: seq<string>
    var loading: bool
    var error: string

    /** No error while loading, and a settled load has either an error or
        at least one country. */
    ghost predicate Valid()
      reads this
    {
      (loading ==> error == "") && (!loading ==> error != "" || countries != [])
    }

    /** Mounting: the initial state already shows the spinner. */
    constructor (title: TitleSummary)
      ensures this.title == title
      ensures countries == [] && loading && error == ""
      ensures Valid() && Panel() == Spinner && AvailableCount() == Ellipsis
    {
      this.title := title;
      countries := [];
      loading := true;
      error := "";
    }

    /** The panel, chosen in priority order: loading, then error, then an
        empty list, then the map and chips. */
    function Panel(): (p: Panel)
      reads this
      ensures p == Spinner <==> loading
      ensures p.InfoAlert? <==> !loading && error != ""
      ensures p == NotAvailableWarning <==> !loading && error == "" && countries == []
      ensures p.Availability? <==> !loading && error == "" && countries != []
      ensures p.InfoAlert? ==> p.message == error
      ensures p.Availability? ==> p.count == |countries| && p.chips == countries
    {
      if loading then Spinner
      else if error != "" then InfoAlert(error)
      else if |countries| == 0 then NotAvailableWarning
      else Availability(|countries|, countries)
    }

    /** "..." while loading, the number of countries otherwise. */
    function AvailableCount(): (c: CountLabel)
      reads this
      ensures c == Ellipsis <==> loading
      ensures c.Number? ==> c.n == |countries|
    {
      if loading then Ellipsis else Number(|countries|)
    }

    /** `loadCountries` up to its `await`: spinner on, error cleared, the
        previous countries kept; the request names the title's id and type. */
    method BeginLoad() returns (titleId: Option<int>, titleType: Option<string>)
      modifies this
      ensures loading && error == "" && countries == old(countries)
      ensures titleId == title.id && titleType == title.kind
      ensures Valid() && Panel() == Spinner
    {
      loading := true;
      error := "";
      titleId, titleType := title.id, title.kind;
    }

    /** `loadCountries` after its `await`, with `reply` what `fetch` and
        `response.json()` gave. A list replaces the countries; a thrown
        message (or the fallback, for an empty one) becomes the error and
        the countries stay. Either way the spinner goes, and the "not
        available" warning cannot be what replaces it. */
    method EndLoad(reply: Result<CountriesEnvelope>)
      requires Valid() && loading
      modifies this
      ensures !loading
      ensures var r := ApiClient.FetchCountriesForTitle(reply);
        r.Ok? ==> countries == r.value && error == "" && Panel() == Availability(|r.value|, r.value)
      ensures var r := ApiClient.FetchCountriesForTitle(reply);
        r.Err? ==> (countries == old(countries) && error == OrElse(r.error, FALLBACK_ERROR)
                    && Panel() == InfoAlert(error))
      ensures Valid() && Panel() != NotAvailableWarning
    {
      var outcome := ApiClient.FetchCountriesForTitle(reply);
      match outcome {
        case Ok(data) =>
          countries := data;
        case Err(message) =>
          error := OrElse(message, FALLBACK_ERROR);
      }
      loading := false;
    }
  }

  /** Mount the page and let any number of loads run one after another:
      the page never shows the "not available" warning. */
  method LoadRepeatedly(title: TitleSummary, replies: seq<Result<CountriesEnvelope>>)
    returns (page: DetailsPage)
    ensures page.title == title && page.Valid()
    ensures replies == [] ==> page.Panel() == Spinner
    ensures replies != [] ==> !page.loading && page.Panel() != NotAvailableWarning
  {
    page := new DetailsPage(title);
    var i := 0;
    while i < |replies|
      invariant 0 <= i <= |replies|
      invariant page.title == title && page.Valid()
      invariant i == 0 ==> page.loading
      invariant i > 0 ==> !page.loading
      modifies page
    {
      var _, _ := page.BeginLoad();
      page.EndLoad(replies[i]);
      i := i + 1;
    }
  }
}
