/** The search page: the text field, the submit and clear buttons, and the
    error alert. Submitting is split at its `await`: `Submit` is what runs
    before the request leaves, `Complete` what runs once `searchTitles` has
    settled. */
module SearchView {
  import opened Wrappers
  import opened Wire
  import ApiClient
  import Root

  const FALLBACK_ERROR := "An error occurred during search"
  const SEARCH_LABEL := "Search"
  const SEARCHING_LABEL := "Searching..."

  class SearchPage {
    var query: string
    var loading: bool
    var error: string

    /** No error is on screen while a search is in flight. */
    ghost predicate Valid()
      reads this
    {
      loading ==> error == ""
    }

    constructor ()
      ensures query == "" && !loading && error == ""
      ensures Valid()
    {
      query := "";
      loading := false;
      error := "";
    }

    /** `disabled={loading}` on the text field. */
    predicate InputDisabled()
      reads this
      ensures InputDisabled() <==> loading
      ensures InputDisabled() == SubmitDisabled() == ClearDisabled()
    {
      loading
    }

    /** `disabled={loading}` on the submit button. */
    predicate SubmitDisabled()
      reads this
      ensures SubmitDisabled() <==> loading
    {
      loading
    }

    function SubmitLabel(): (caption: string)
      reads this
      ensures caption == SEARCHING_LABEL <==> SubmitDisabled()
      ensures caption == SEARCH_LABEL <==> !SubmitDisabled()
    {
      if loading then SEARCHING_LABEL else SEARCH_LABEL
    }

    /** The clear button is drawn only for a non-empty query. */
    predicate ClearVisible()
      reads this
      ensures ClearVisible() <==> |query| > 0
    {
      query != ""
    }

    /** `disabled={loading}` on the clear button. */
    predicate ClearDisabled()
      reads this
      ensures ClearDisabled() <==> loading
      ensures ClearDisabled() <==> SubmitLabel() == SEARCHING_LABEL
    {
      loading
    }

    /** The error alert is drawn only for a non-empty error. */
    predicate ErrorShown()
      reads this
      ensures ErrorShown() <==> |error| > 0
      ensures Valid() && ErrorShown() ==> !InputDisabled()
    {
      error != ""
    }

    /** The text field's `onChange`; a disabled field delivers no change. */
    method Change(text: string)
      requires !InputDisabled()
      modifies this
      ensures query == text && loading == old(loading) && error == old(error)
      ensures ClearVisible() <==> text != ""
    {
      query := text;
    }

    /** `handleSearch` up to its `await`: the form is locked and the old
        error cleared; the request carries the current query. Only an
        enabled form can be submitted. */
    method Submit() returns (sent: string)
      requires !SubmitDisabled() && !InputDisabled()
      modifies this
      ensures sent == query && query == old(query)
      ensures loading && error == ""
      ensures InputDisabled() && SubmitDisabled() && SubmitLabel() == SEARCHING_LABEL && !ErrorShown()
      ensures Valid()
    {
      loading := true;
      error := "";
      sent := query;
    }

    /** `handleSearch` after its `await`, with `server` standing for the
        backend. A list goes to `onSearchResults` and the error stays
        clear; a thrown message (or the fallback, for an empty one) goes to
        the alert and the root is not told of results. Either way the form
        is unlocked and `onLoading(false)` is called. */
    method Complete(sent: string, server: string -> Result<SearchEnvelope>, app: Root.App)
      requires Valid() && loading
      requires app.Valid()
      modifies this, app
      ensures query == old(query) && !loading
      ensures var r := ApiClient.SearchTitles(sent, server);
        r.Ok? ==> error == "" && app.currentPage == Root.Results && app.searchResults == r.value
      ensures var r := ApiClient.SearchTitles(sent, server);
        r.Err? ==> (error == OrElse(r.error, FALLBACK_ERROR)
                    && app.currentPage == old(app.currentPage) && app.searchResults == old(app.searchResults))
      ensures app.selectedTitle == old(app.selectedTitle)
      ensures !app.isLoading && app.Valid() && Valid()
      ensures !InputDisabled() && !SubmitDisabled() && SubmitLabel() == SEARCH_LABEL
      ensures ErrorShown() <==> ApiClient.SearchTitles(sent, server).Err?
    {
      var outcome := ApiClient.SearchTitles(sent, server);
      match outcome {
        case Ok(results) =>
          app.HandleSearchResults(results);
        case Err(message) =>
          error := OrElse(message, FALLBACK_ERROR);
      }
      loading := false;
      app.HandleLoading(false);
    }

    /** `handleClear`, on the clear button, which is drawn only for a
        non-empty query and disabled while loading. */
    method Clear()
      requires ClearVisible() && !ClearDisabled()
      modifies this
      ensures query == "" && error == "" && loading == old(loading)
      ensures !ClearVisible() && !ErrorShown()
      ensures Valid()
    {
      query := "";
      error := "";
    }
  }

  /** One full search from a fresh page: type, submit, settle. The alert
      is shown exactly when the search failed, and an all-whitespace query
      never reaches the backend. */
  method TypeAndSearch(text: string, server: string -> Result<SearchEnvelope>, app: Root.App)
    returns (page: SearchPage)
    requires app.Valid()
    modifies app
    ensures page.query == text && !page.loading
    ensures ApiClient.AllWhitespace(text) ==> page.error == ApiClient.EMPTY_QUERY_MESSAGE
    ensures ApiClient.AllWhitespace(text) ==> app.currentPage == old(app.currentPage)
    ensures !app.isLoading && app.Valid()
  {
    page := new SearchPage();
    page.Change(text);
    var sent := page.Submit();
    page.Complete(sent, server, app);
  }
}
