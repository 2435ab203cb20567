/** The state of the single-page app's container component
    (frontend/src/App.js) and its transitions: the token fetched on
    mount, a search (two guard exits, then a request that succeeds or
    fails), and favourites changes.  Network calls are replaced by their
    outcomes. */
module Controller {
  import opened Wrappers
  import opened Items
  import opened Media
  import Favourites
  import FavouritesStore

  const EmptyTermMessage := "Please enter a search term."
  const MissingTokenMessage := "Authorization token not available. Please refresh or try again."
  const SearchFailedMessage := "Error fetching search results. Please try again."
  const TokenFailedMessage := "Failed to get authorization token. Please ensure the backend is running."

  datatype AppState = AppState(
    searchTerm: string,
    mediaType: MediaType,
    searchResults: seq<Item>,
    favourites: seq<Item>,
    jwtToken: string,
    loading: bool,
    error: string)

  /** The search request the frontend sends: term and media as query
      parameters, the token in the `x-access-token` header. */
  datatype SearchRequest = SearchRequest(term: string, media: MediaType, token: string)

  /** How the awaited search request ended: the response body, or a throw. */
  datatype SearchOutcome = Ok(results: seq<Item>) | Fail

  /** How the token request made on mount ended. */
  datatype TokenOutcome = TokenIssued(token: string) | TokenFailed

  /** A transition of the search handler: the new state and the request
      it issued, if any. */
  datatype Step = Step(state: AppState, request: Option<SearchRequest>)

  /** The state on first render, with favourites read from storage. */
  function Initial(storage: FavouritesStore.Storage, parse: FavouritesStore.Parse): (s: AppState)
    ensures s.searchTerm == "" && s.mediaType == DefaultMedia && s.searchResults == []
    ensures s.jwtToken == "" && !s.loading && s.error == ""
    ensures s.favourites == FavouritesStore.Load(storage, parse)
    ensures FavouritesStore.StorageKey !in storage ==> s.favourites == []
  {
    AppState("", DefaultMedia, [], FavouritesStore.Load(storage, parse), "", false, "")
  }

  /** The effect run on mount: store the issued token, or report that
      none could be obtained.  Nothing else changes. */
  function ReceiveToken(s: AppState, outcome: TokenOutcome): (s': AppState)
    ensures outcome.TokenIssued? ==> s'.jwtToken == outcome.token && s'.error == s.error
    ensures outcome.TokenFailed? ==> s'.jwtToken == s.jwtToken && s'.error == TokenFailedMessage
    ensures s'.searchTerm == s.searchTerm && s'.mediaType == s.mediaType
            && s'.searchResults == s.searchResults && s'.favourites == s.favourites
            && s'.loading == s.loading
  {
    match outcome
    case TokenIssued(token) => s.(jwtToken := token)
    case TokenFailed => s.(error := TokenFailedMessage)
  }

  /** The synchronous part of `handleSearch`, up to the awaited request. */
  function StartSearch(s: AppState): (st: Step)
    // an empty term is reported, before the token is looked at
    ensures s.searchTerm == "" ==> st.request.None? && st.state == s.(error := EmptyTermMessage)
    ensures s.searchTerm != "" && s.jwtToken == "" ==>
              st.request.None? && st.state == s.(error := MissingTokenMessage)
    // otherwise loading starts with error and results cleared
    ensures s.searchTerm != "" && s.jwtToken != "" ==>
              && st.request == Some(SearchRequest(s.searchTerm, s.mediaType, s.jwtToken))
              && st.state.loading && st.state.error == "" && st.state.searchResults == []
              && st.state.favourites == s.favourites && st.state.jwtToken == s.jwtToken
              && st.state.searchTerm == s.searchTerm && st.state.mediaType == s.mediaType
  {
    if s.searchTerm == "" then Step(s.(error := EmptyTermMessage), None)
    else if s.jwtToken == "" then Step(s.(error := MissingTokenMessage), None)
    else
      Step(s.(loading := true, error := "", searchResults := []),
           Some(SearchRequest(s.searchTerm, s.mediaType, s.jwtToken)))
  }

  /** The part of `handleSearch` after the awaited request settles. */
  function CompleteSearch(s: AppState, outcome: SearchOutcome): (s': AppState)
    ensures !s'.loading
    ensures outcome.Ok? ==> s'.searchResults == outcome.results && s'.error == s.error
    ensures outcome.Fail? ==> s'.searchResults == s.searchResults && s'.error == SearchFailedMessage
    ensures s'.favourites == s.favourites && s'.jwtToken == s.jwtToken
            && s'.searchTerm == s.searchTerm && s'.mediaType == s.mediaType
  {
    match outcome
    case Ok(results) => s.(searchResults := results, loading := false)
    case Fail => s.(error := SearchFailedMessage, loading := false)
  }

  /** `handleSearch` from trigger to completion, given how the request
      (if one is issued) ends. */
  function HandleSearch(s: AppState, outcome: SearchOutcome): (st: Step)
    ensures s.searchTerm == "" ==> st.request.None? && st.state == s.(error := EmptyTermMessage)
    ensures s.searchTerm != "" && s.jwtToken == "" ==>
              st.request.None? && st.state == s.(error := MissingTokenMessage)
    ensures s.searchTerm != "" && s.jwtToken != "" ==>
              st.request == Some(SearchRequest(s.searchTerm, s.mediaType, s.jwtToken))
              && !st.state.loading
              && st.state == s.(loading := false, error := st.state.error,
                                searchResults := st.state.searchResults)
    ensures s.searchTerm != "" && s.jwtToken != "" && outcome.Ok? ==>
              st.state.searchResults == outcome.results && st.state.error == ""
    ensures s.searchTerm != "" && s.jwtToken != "" && outcome.Fail? ==>
              st.state.searchResults == [] && st.state.error == SearchFailedMessage
  {
    var started := StartSearch(s);
    if started.request.Some? then Step(CompleteSearch(started.state, outcome), started.request)
    else started
  }

  /** A search that issues no request changes nothing but the error. */
  lemma GuardExitKeepsState(s: AppState, outcome: SearchOutcome)
    requires HandleSearch(s, outcome).request.None?
    ensures HandleSearch(s, outcome).state == s.(error := HandleSearch(s, outcome).state.error)
    ensures HandleSearch(s, outcome).state.error in {EmptyTermMessage, MissingTokenMessage}
  {
  }

  /** A search never leaves the app loading, whatever the outcome. */
  lemma SearchNeverLeftLoading(s: AppState, outcome: SearchOutcome)
    requires !s.loading
    ensures !HandleSearch(s, outcome).state.loading
  {
  }

  /** `addToFavourites` on the app state. */
  function AddToFavourites(s: AppState, item: Item): (s': AppState)
    ensures s'.favourites == Favourites.Add(s.favourites, item)
    ensures s' == s.(favourites := s'.favourites)
    ensures Favourites.HasId(s'.favourites, item.id)
  {
    s.(favourites := Favourites.Add(s.favourites, item))
  }

  /** `removeFromFavourites` on the app state. */
  function RemoveFromFavourites(s: AppState, item: Item): (s': AppState)
    ensures s'.favourites == Favourites.Remove(s.favourites, item)
    ensures s' == s.(favourites := s'.favourites)
    ensures !Favourites.HasId(s'.favourites, item.id)
  {
    s.(favourites := Favourites.Remove(s.favourites, item))
  }
}
