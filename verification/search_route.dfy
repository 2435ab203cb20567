/** The `GET /search` route (backend/routes/itunes.js, lines 29-81): the
    token gate runs first; when it passes, the handler asks the
    catalogue for at most 25 results, reshapes them and returns them, or
    answers 500 when the upstream request or its processing fails. */
module SearchRoute {
  import opened Wrappers
  import opened Items
  import opened Http
  import opened Catalogue
  import Auth

  const UpstreamFailureMessage := "Failed to fetch data from iTunes API due to an internal error."
  /** The result cap passed upstream; nothing enforces it locally. */
  const UpstreamLimit := 25

  /** The query string of a search request. */
  datatype Query = Query(term: Option<string>, media: Option<string>)

  /** An incoming request: its `x-access-token` header and its query. */
  datatype Request = Request(accessToken: Option<string>, query: Query)

  /** What the upstream call produced: the `results` array of its body,
      or a failure (transport error, error status, unreadable body). */
  datatype Upstream = Fetched(results: seq<RawRecord>) | FetchFailed

  /** The route handler proper, run after the gate called next(). */
  function SearchHandler(query: Query, upstream: Upstream, formatDate: DateFormatter): (trace: seq<Effect>)
    // the term and media are passed upstream unchanged, with the fixed cap
    ensures |trace| > 0 && trace[0] == UpstreamCall(query.term, query.media, UpstreamLimit)
    // exactly one response is sent
    ensures |Responses(trace)| == 1
    ensures upstream.Fetched? ==>
              var r := Responses(trace)[0];
              r.status == 200 && r.body.ItemsBody?
              && |r.body.items| == |upstream.results|
              && forall i :: 0 <= i < |upstream.results| ==>
                   r.body.items[i] == FormatRecord(upstream.results[i], formatDate)
    ensures upstream.FetchFailed? ==>
              Responses(trace) == [Response(500, MessageBody(UpstreamFailureMessage))]
    ensures NextCalls(trace) == 0
  {
    var call := UpstreamCall(query.term, query.media, UpstreamLimit);
    match upstream
    case Fetched(results) =>
      [call, Send(Response(200, ItemsBody(FormatResults(results, formatDate))))]
    case FetchFailed =>
      [call, Send(Response(500, MessageBody(UpstreamFailureMessage)))]
  }

  /** The whole route: gate, then handler only if the gate called next(). */
  function SearchEndpoint(req: Request, verify: Auth.Verifier, upstream: Upstream,
                          formatDate: DateFormatter): (trace: seq<Effect>)
    // the gate's effects come first, unchanged
    ensures var gate := Auth.VerifyToken(req.accessToken, verify);
            |gate| <= |trace| && trace[..|gate|] == gate
    // the handler adds effects exactly when the gate passed the request on
    ensures var gate := Auth.VerifyToken(req.accessToken, verify);
            Auth.Passed(gate) <==> |trace| > |gate|
  {
    var gate := Auth.VerifyToken(req.accessToken, verify);
    if Auth.Passed(gate) then gate + SearchHandler(req.query, upstream, formatDate)
    else gate
  }

  /** The single response of a trace that sends one, else `None`. */
  function ResponseOf(trace: seq<Effect>): (r: Option<Response>)
    ensures |Responses(trace)| == 1 ==> r == Some(Responses(trace)[0])
  {
    var rs := Responses(trace);
    if |rs| == 1 then Some(rs[0]) else None
  }

  /** Every request to the route receives exactly one response. */
  lemma ExactlyOneResponse(req: Request, verify: Auth.Verifier, upstream: Upstream,
                           formatDate: DateFormatter)
    ensures |Responses(SearchEndpoint(req, verify, upstream, formatDate))| == 1
  {
    var gate := Auth.VerifyToken(req.accessToken, verify);
    Auth.ExactlyOneOutcome(req.accessToken, verify);
    if Auth.Passed(gate) {
      ResponsesAppend(gate, SearchHandler(req.query, upstream, formatDate));
    }
  }

  /** The catalogue is contacted exactly when the request carries a token
      that verifies; in particular never for a request without a token. */
  lemma UpstreamOnlyAfterGate(req: Request, verify: Auth.Verifier, upstream: Upstream,
                              formatDate: DateFormatter)
    ensures CallsUpstream(SearchEndpoint(req, verify, upstream, formatDate))
            <==> JsLogic.Truthy(req.accessToken) && verify(req.accessToken.value).Some?
  {
    var gate := Auth.VerifyToken(req.accessToken, verify);
    var trace := SearchEndpoint(req, verify, upstream, formatDate);
    Auth.PassedIff(req.accessToken, verify);
    assert !CallsUpstream(gate);
    if Auth.Passed(gate) {
      var h := SearchHandler(req.query, upstream, formatDate);
      assert trace[|gate|] == h[0];
    }
  }

  /** Every 2xx response the route sends carries an item list: the only
      success it answers is the 200 with the reshaped results. */
  lemma SuccessCarriesItems(req: Request, verify: Auth.Verifier, upstream: Upstream,
                            formatDate: DateFormatter)
    ensures var r := ResponseOf(SearchEndpoint(req, verify, upstream, formatDate));
            r.Some? && 200 <= r.value.status < 300 ==> r.value.body.ItemsBody?
  {
    ResponseByCase(req, verify, upstream, formatDate);
  }

  /** The response the route sends, by case: 401 and 403 from the gate,
      otherwise 200 with the reshaped results or 500. */
  lemma ResponseByCase(req: Request, verify: Auth.Verifier, upstream: Upstream,
                       formatDate: DateFormatter)
    ensures var r := ResponseOf(SearchEndpoint(req, verify, upstream, formatDate));
            && (!JsLogic.Truthy(req.accessToken) ==>
                  r == Some(Response(401, MessageBody(Auth.NoTokenMessage))))
            && (JsLogic.Truthy(req.accessToken) && verify(req.accessToken.value).None? ==>
                  r == Some(Response(403, MessageBody(Auth.InvalidTokenMessage))))
            && (JsLogic.Truthy(req.accessToken) && verify(req.accessToken.value).Some?
                && upstream.Fetched? ==>
                  r == Some(Response(200, ItemsBody(FormatResults(upstream.results, formatDate)))))
            && (JsLogic.Truthy(req.accessToken) && verify(req.accessToken.value).Some?
                && upstream.FetchFailed? ==>
                  r == Some(Response(500, MessageBody(UpstreamFailureMessage))))
  {
    var gate := Auth.VerifyToken(req.accessToken, verify);
    Auth.PassedIff(req.accessToken, verify);
    if Auth.Passed(gate) {
      var h := SearchHandler(req.query, upstream, formatDate);
      ResponsesAppend(gate, h);
      if upstream.Fetched? {
        var items := Responses(h)[0].body.items;
        var expected := FormatResults(upstream.results, formatDate);
        assert |items| == |expected|;
        assert forall i :: 0 <= i < |items| ==> items[i] == expected[i];
        assert items == expected;
      }
    }
  }
}
