/** The root component: which page is on screen, the list the search page
    produced, the title picked on the results page, and the loading flag
    handed down to the results page. The four navigation handlers overwrite
    these fields; the render guards pick the page to draw from them. */
module Root {
  import opened Wrappers
  import opened Wire
  import ResultsView

  datatype Page = Search | Results | Details

  /** What the child pages can ask of the root: the two search-page
      callbacks (`onSearchResults`, and `onLoading`, which is only ever
      called with `false`), the results page's `onSelectTitle` and
      `onBackToSearch`, and the details page's `onBack`. */
  datatype Event =
    | SearchResults(results: seq<TitleSummary>)
    | LoadingOff
    | SelectTitle(title: TitleSummary)
    | BackToSearch
    | BackToResults

  class App {
    var currentPage: Page
    var searchResults: seq<TitleSummary>
    var selectedTitle: Option<TitleSummary>
    var isLoading: bool

    /** The details page is current only with a title selected. */
    ghost predicate Valid()
      reads this
    {
      currentPage == Details ==> selectedTitle.Some?
    }

    constructor ()
      ensures Valid()
      ensures currentPage == Search && searchResults == [] && selectedTitle == None && !isLoading
    {
      currentPage := Search;
      searchResults := [];
      selectedTitle := None;
      isLoading := false;
    }

    /** `handleSearchResults`: keep the list and show the results page. */
    method HandleSearchResults(results: seq<TitleSummary>)
      modifies this
      ensures currentPage == Results && searchResults == results
      ensures selectedTitle == old(selectedTitle) && isLoading == old(isLoading)
      ensures Valid()
    {
      searchResults := results;
      currentPage := Results;
    }

    /** `handleSelectTitle`: keep the title and show the details page. */
    method HandleSelectTitle(title: TitleSummary)
      modifies this
      ensures currentPage == Details && selectedTitle == Some(title)
      ensures searchResults == old(searchResults) && isLoading == old(isLoading)
      ensures Valid()
    {
      selectedTitle := Some(title);
      currentPage := Details;
    }

    /** `handleBackToSearch`: show the search page and forget both the list
        and the selection. */
    method HandleBackToSearch()
      modifies this
      ensures currentPage == Search && searchResults == [] && selectedTitle == None
      ensures isLoading == old(isLoading)
      ensures Valid()
    {
      currentPage := Search;
      searchResults := [];
      selectedTitle := None;
    }

    /** `handleBackToResults`: show the results page again with the same
        list; the selection is forgotten. */
    method HandleBackToResults()
      modifies this
      ensures currentPage == Results && selectedTitle == None
      ensures searchResults == old(searchResults) && isLoading == old(isLoading)
      ensures Valid()
    {
      currentPage := Results;
      selectedTitle := None;
    }

    /** `setIsLoading`, passed down as `onLoading`. */
    method HandleLoading(value: bool)
      modifies this
      ensures isLoading == value
      ensures currentPage == old(currentPage) && searchResults == old(searchResults)
      ensures selectedTitle == old(selectedTitle)
      ensures old(Valid()) ==> Valid()
    {
      isLoading := value;
    }

    /** The pages the render guards let through: the search and results
        pages on their page name alone, the details page only when a title
        is also selected. At most one page is drawn, and with `Valid()`
        exactly the current one. */
    function Visible(): (pages: set<Page>)
      reads this
      ensures pages <= {currentPage}
      ensures currentPage in pages <==> currentPage != Details || selectedTitle.Some?
      ensures Valid() ==> pages == {currentPage}
    {
      (if currentPage == Search then {Search} else {})
      + (if currentPage == Results then {Results} else {})
      + (if currentPage == Details && selectedTitle.Some? then {Details} else {})
    }

    /** What the results page draws when it is on screen: it is given
        `searchResults` and `isLoading`. */
    function ResultsScreen(): (screen: ResultsView.Screen)
      reads this
      ensures !isLoading ==> screen.Listing? && screen.cards == ResultsView.Shown(searchResults)
      ensures isLoading ==> screen.Skeletons?
    {
      ResultsView.Render(searchResults, isLoading)
    }

    /** One callback from a child page. */
    method Step(e: Event)
      modifies this
      ensures old(Valid()) ==> Valid()
      ensures !old(isLoading) ==> !isLoading
      ensures e.SearchResults? ==> currentPage == Results && searchResults == e.results && selectedTitle == old(selectedTitle)
      ensures e.SelectTitle? ==> currentPage == Details && selectedTitle == Some(e.title) && searchResults == old(searchResults)
      ensures e.BackToSearch? ==> currentPage == Search && searchResults == [] && selectedTitle == None
      ensures e.BackToResults? ==> currentPage == Results && selectedTitle == None && searchResults == old(searchResults)
      ensures e.LoadingOff? ==> (!isLoading && currentPage == old(currentPage)
                                 && searchResults == old(searchResults) && selectedTitle == old(selectedTitle))
      ensures !e.LoadingOff? ==> isLoading == old(isLoading)
    {
      match e
      case SearchResults(results) => HandleSearchResults(results);
      case LoadingOff => HandleLoading(false);
      case SelectTitle(title) => HandleSelectTitle(title);
      case BackToSearch => HandleBackToSearch();
      case BackToResults => HandleBackToResults();
    }

    /** Any sequence of callbacks from the initial state keeps the details
        page backed by a selection, and `isLoading` is never raised, so the
        results page never shows its skeletons. */
    method Run(events: seq<Event>)
      requires Valid() && !isLoading
      modifies this
      ensures Valid() && !isLoading
      ensures currentPage in Visible() && |Visible()| == 1
      ensures ResultsScreen().Listing?
    {
      var i := 0;
      while i < |events|
        invariant 0 <= i <= |events|
        invariant Valid() && !isLoading
      {
        Step(events[i]);
        i := i + 1;
      }
    }
  }

  /** Search, pick a title, go back twice: the root ends where it started,
      having shown the chosen list on the way back. */
  method NavigationRoundTrip(results: seq<TitleSummary>, title: TitleSummary)
    returns (app: App, listAfterFirstBack: seq<TitleSummary>)
    ensures listAfterFirstBack == results
    ensures app.currentPage == Search && app.searchResults == [] && app.selectedTitle == None && !app.isLoading
  {
    app := new App();
    app.HandleSearchResults(results);
    app.HandleSelectTitle(title);
    app.HandleBackToResults();
    listAfterFirstBack := app.searchResults;
    app.HandleBackToSearch();
  }
}
