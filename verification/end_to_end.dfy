/** The frontend's search request carried to the backend route and the
    route's response carried back as the outcome the frontend awaits.
    The frontend sends the token it holds in the `x-access-token` header
    and the term and media value as query parameters; the HTTP client
    resolves on a 2xx response and throws otherwise. */
module EndToEnd {
  import opened Wrappers
  import opened Items
  import opened Http
  import opened Catalogue
  import Media
  import Auth
  import SearchRoute
  import Controller

  /** The HTTP request the backend receives for a frontend search request. */
  function ToHttp(r: Controller.SearchRequest): (req: SearchRoute.Request)
    ensures req.accessToken == Some(r.token)
    ensures req.query.term == Some(r.term)
    ensures req.query.media.Some? && Media.Parse(req.query.media.value) == Some(r.media)
  {
    Media.ParseValue(r.media);
    SearchRoute.Request(Some(r.token), SearchRoute.Query(Some(r.term), Some(Media.Value(r.media))))
  }

  /** The outcome the frontend sees for the route's response. */
  function OutcomeOf(resp: Option<Response>): (o: Controller.SearchOutcome)
    ensures o.Ok? <==> resp.Some? && 200 <= resp.value.status < 300 && resp.value.body.ItemsBody?
    ensures o.Ok? ==> o.results == resp.value.body.items
  {
    match resp
    case Some(Response(status, ItemsBody(items))) =>
      if 200 <= status < 300 then Controller.Ok(items) else Controller.Fail
    case _ => Controller.Fail
  }

  /** One search, end to end: the frontend's handler with the outcome the
      backend route produces for the request it issues. */
  function Search(s: Controller.AppState, verify: Auth.Verifier, upstream: SearchRoute.Upstream,
                  formatDate: DateFormatter): (st: Controller.Step)
    ensures st.request == Controller.StartSearch(s).request
  {
    var started := Controller.StartSearch(s);
    match started.request
    case None => Controller.HandleSearch(s, Controller.Fail)
    case Some(r) =>
      var trace := SearchRoute.SearchEndpoint(ToHttp(r), verify, upstream, formatDate);
      Controller.HandleSearch(s, OutcomeOf(SearchRoute.ResponseOf(trace)))
  }

  /** A search with a term and a token the backend accepts, against a
      working catalogue, shows exactly the reshaped catalogue results. */
  lemma SearchShowsReshapedResults(s: Controller.AppState, verify: Auth.Verifier,
                                   results: seq<RawRecord>, formatDate: DateFormatter)
    requires s.searchTerm != "" && s.jwtToken != "" && verify(s.jwtToken).Some?
    ensures var st := Search(s, verify, SearchRoute.Fetched(results), formatDate);
            st.state.searchResults == FormatResults(results, formatDate)
            && st.state.error == "" && !st.state.loading
  {
    var r := Controller.StartSearch(s).request.value;
    SearchRoute.ResponseByCase(ToHttp(r), verify, SearchRoute.Fetched(results), formatDate);
  }

  /** A search with a token the backend rejects, or against a failing
      catalogue, shows no results and the fixed failure message. */
  lemma SearchFailureShowsMessage(s: Controller.AppState, verify: Auth.Verifier,
                                  upstream: SearchRoute.Upstream, formatDate: DateFormatter)
    requires s.searchTerm != "" && s.jwtToken != ""
    requires verify(s.jwtToken).None? || upstream.FetchFailed?
    ensures var st := Search(s, verify, upstream, formatDate);
            st.state.searchResults == [] && st.state.error == Controller.SearchFailedMessage
  {
    var r := Controller.StartSearch(s).request.value;
    SearchRoute.ResponseByCase(ToHttp(r), verify, upstream, formatDate);
  }

  /** Whatever happens, every result shown after a search that issued a
      request has a non-empty title, artist, artwork and kind. */
  lemma ShownResultsHaveDefaults(s: Controller.AppState, verify: Auth.Verifier,
                                 upstream: SearchRoute.Upstream, formatDate: DateFormatter)
    requires s.searchTerm != "" && s.jwtToken != ""
    ensures forall it :: it in Search(s, verify, upstream, formatDate).state.searchResults ==>
              it.title != "" && it.artist != "" && it.artwork != "" && it.kind != ""
  {
    if verify(s.jwtToken).Some? && upstream.Fetched? {
      SearchShowsReshapedResults(s, verify, upstream.results, formatDate);
      FormatResultsNonEmptyFields(upstream.results, formatDate);
    } else {
      SearchFailureShowsMessage(s, verify, upstream, formatDate);
    }
  }
}
