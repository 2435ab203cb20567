# SpectraFlow core, modelled in Dafny

SpectraFlow is a small web application: a React page searches the iTunes
catalogue and keeps a favourites list in the browser's local storage, and an
Express backend issues short-lived tokens, checks them, and proxies searches
to the iTunes Search API, reshaping every catalogue record into a six-field
item. This project models the three pieces of pure logic in it and proves
their properties:

- the backend's reshaping of raw catalogue records (`Catalogue`), including
  the JavaScript `||` fallback chains (`JsLogic`), and the `/search` route
  that runs it behind the token gate (`SearchRoute`);
- the token gate `verifyToken` (`Auth`), with the effects of an Express
  handler written as a trace of events (`Http`): verification invoked, claims
  attached to the request, `next()` called, upstream contacted, response sent;
- the frontend container's state: the favourites list (`Favourites`), its
  persistence (`FavouritesStore`), the search handler's state machine
  (`Controller`), and a search carried from the frontend through the route and
  back (`EndToEnd`). `Media` is the nine-valued media filter of the search bar.

Abstractions: `jwt.verify` is a function parameter `string -> Option<Claims>`
(the secret and the clock live inside it); `toLocaleDateString` is a function
parameter `string -> string`; the calls to the catalogue and to the backend are
replaced by their outcomes (`Upstream`, `SearchOutcome`, `TokenOutcome`);
`localStorage` is a `map<string, string>` and `JSON.stringify`/`JSON.parse` are
function parameters.

Behaviours of the code worth noting:
- A field falls back when it is falsy: an empty string is skipped exactly
  like an absent or null field (`JsLogic.Truthy`).
- `id` has no default. When both `trackId` and `collectionId` are falsy,
  `id` is whatever `collectionId` was (absent or `0`). So `Item.id` is an
  `Option<int>`.
- The 25-result cap is only a parameter of the upstream request
  (`SearchRoute.UpstreamLimit`, recorded in the `UpstreamCall` effect). Nothing
  local enforces it, so no bound on the result count is stated.
- A failed search leaves the results empty because they were cleared when the
  request started. The failure branch does not clear them again.

## Model

| member | source | states |
|---|---|---|
| `JsLogic.OrChain` | SpectraFlow/backend/routes/itunes.js:50 | a left-to-right chain of JavaScript logical-or operators yields the first truthy operand, else the last operand; it is truthy iff some operand is |
| `Catalogue.Id` | SpectraFlow/backend/routes/itunes.js:48 | the id is `trackId` when truthy, otherwise `collectionId` as it is, with no further default |
| `Catalogue.Title` | SpectraFlow/backend/routes/itunes.js:50 | the title is the first truthy of trackName, collectionName, collectionCensoredName, artistName, otherwise "Untitled"; never empty |
| `Catalogue.Artist` | SpectraFlow/backend/routes/itunes.js:52 | the artist is artistName when truthy, otherwise "Unknown Artist"; never empty |
| `Catalogue.Artwork` | SpectraFlow/backend/routes/itunes.js:54 | the artwork is the 100px URL, else the 60px URL, else the placeholder URL; never empty |
| `Catalogue.ReleaseDate` | SpectraFlow/backend/routes/itunes.js:56 | a truthy release date is formatted, a falsy one shows "Unknown Date" |
| `Catalogue.Kind` | SpectraFlow/backend/routes/itunes.js:58 | the kind is the record's kind when truthy, otherwise "Unknown Type"; never empty |
| `Catalogue.FormatRecord` | SpectraFlow/backend/routes/itunes.js:46-69 | an item has exactly the six fields, each given by its own fallback rule, and its title, artist, artwork and kind are never empty |
| `Catalogue.FormatResults` | SpectraFlow/backend/routes/itunes.js:46 | one item per upstream record: same length, and item i is the reshaping of record i |
| `Catalogue.UnknownDateExactlyWhenFalsy` | SpectraFlow/backend/routes/itunes.js:56 | when the date formatter never yields "Unknown Date", an item shows "Unknown Date" exactly when its record's release date is falsy |
| `Catalogue.FormatResultsAppend` | SpectraFlow/backend/routes/itunes.js:46 | reshaping distributes over concatenation, so records are never reordered, merged or dropped |
| `Catalogue.FormatResultsNonEmptyFields` | SpectraFlow/backend/routes/itunes.js:61-68 | every returned item has a non-empty title, artist, artwork and kind |
| `Auth.VerifyToken` | SpectraFlow/backend/middleware/auth.js:4-51 | a missing or empty token gives one 401 with the fixed message, no verification and no `next()`; a present token is verified; if accepted, the claims are attached and `next()` is called once, last, with no response; if rejected, one 403 with the fixed message and no `next()` |
| `Auth.ExactlyOneOutcome` | SpectraFlow/backend/middleware/auth.js:18-50 | for every request exactly one of 401, 403, or a single `next()` with no response happens |
| `Auth.MissingTokenPrecedesVerification` | SpectraFlow/backend/middleware/auth.js:18-31 | without a token the gate's behaviour does not depend on the verifier: the 401 check comes first |
| `Auth.PassedIff` | SpectraFlow/backend/middleware/auth.js:18-42 | the gate passes exactly when a token is present and the verifier accepts it |
| `SearchRoute.SearchHandler` | SpectraFlow/backend/routes/itunes.js:29-81 | the handler first calls upstream with the term and media unchanged and the cap 25, then sends one response: 200 with one reshaped item per upstream record in order, or 500 with the fixed message |
| `SearchRoute.SearchEndpoint` | SpectraFlow/backend/routes/itunes.js:29 | the route runs the token gate first, and its effects come first and unchanged; the handler adds effects exactly when the gate passed the request on |
| `SearchRoute.ExactlyOneResponse` | SpectraFlow/backend/routes/itunes.js:29-81 | gate plus handler send exactly one response for every request |
| `SearchRoute.UpstreamOnlyAfterGate` | SpectraFlow/backend/routes/itunes.js:29-42 | the catalogue is contacted iff the request has a token that verifies; never without a token |
| `SearchRoute.ResponseByCase` | SpectraFlow/backend/routes/itunes.js:29-79 | the route's response is 401, 403, 200 with the reshaped results, or 500, according to token presence, verification and the upstream outcome |
| `SearchRoute.SuccessCarriesItems` | SpectraFlow/backend/routes/itunes.js:29-79 | every 2xx response the route sends carries an item list |
| `Favourites.Add` | SpectraFlow/frontend/src/App.js:119-128 | a new id is appended at the end with earlier entries unchanged and in order; a known id leaves the list unchanged; the id is present afterwards; distinct ids stay distinct |
| `Favourites.Remove` | SpectraFlow/frontend/src/App.js:130-135 | the list never grows, and afterwards no entry has the removed item's id |
| `Favourites.RemoveKeepsExactly` | SpectraFlow/frontend/src/App.js:133 | an entry is kept exactly when it was in the list and its id differs from the removed item's id |
| `Favourites.AddIdempotent` | SpectraFlow/frontend/src/App.js:121-126 | adding the same item twice equals adding it once |
| `Favourites.RemoveAppend` | SpectraFlow/frontend/src/App.js:133 | removal distributes over concatenation, so kept entries stay in their original order |
| `Favourites.RemoveAbsent` | SpectraFlow/frontend/src/App.js:133 | removing an id that is not present leaves the list unchanged |
| `Favourites.RemoveIdempotent` | SpectraFlow/frontend/src/App.js:133 | removing twice equals removing once |
| `Favourites.RemovePreservesDistinct` | SpectraFlow/frontend/src/App.js:133 | removal keeps ids distinct |
| `Favourites.RemoveUndoesAdd` | SpectraFlow/frontend/src/App.js:119-135 | removing an item just added under a new id restores the previous list |
| `FavouritesStore.Load` | SpectraFlow/frontend/src/App.js:28-32 | with no stored key, or an empty stored string, the initial favourites are empty; otherwise they are the parsed stored text |
| `FavouritesStore.Save` | SpectraFlow/frontend/src/App.js:65-67 | the serialised list is stored under the fixed key and every other key is untouched |
| `FavouritesStore.LoadAfterSave` | SpectraFlow/frontend/src/App.js:28-32 | reloading after a save gives back the saved list when the serialiser and parser round-trip |
| `Controller.Initial` | SpectraFlow/frontend/src/App.js:22-38 | the first state has an empty term, media "all", no results, no token, not loading, no error, and the stored favourites (empty when nothing is stored) |
| `Controller.ReceiveToken` | SpectraFlow/frontend/src/App.js:46-62 | an issued token is stored; a failed token request sets the fixed error; nothing else changes |
| `Controller.StartSearch` | SpectraFlow/frontend/src/App.js:69-85 | an empty term sets the term error and issues nothing, before the token is checked; a missing token sets the token error and issues nothing; both change nothing else; otherwise a request with the term, media and token is issued and loading starts with error and results cleared |
| `Controller.CompleteSearch` | SpectraFlow/frontend/src/App.js:98-116 | loading ends; success replaces the results with the response; failure sets the fixed error and leaves results as they were |
| `Controller.HandleSearch` | SpectraFlow/frontend/src/App.js:69-117 | guard exits change only the error; a search that issues a request ends not loading, with the response's results and no error on success, or no results and the fixed error on failure; term, media, token and favourites are unchanged |
| `Controller.GuardExitKeepsState` | SpectraFlow/frontend/src/App.js:71-80 | a search that issues no request changes nothing but the error, which is one of the two guard messages |
| `Controller.SearchNeverLeftLoading` | SpectraFlow/frontend/src/App.js:112-116 | starting from a state that is not loading, a search never leaves the app loading |
| `Controller.AddToFavourites` | SpectraFlow/frontend/src/App.js:119-128 | only the favourites change, and the added id is present afterwards |
| `Controller.RemoveFromFavourites` | SpectraFlow/frontend/src/App.js:130-135 | only the favourites change, and the removed id is absent afterwards |
| `Media.Parse` | SpectraFlow/frontend/src/components/SearchBar.js:7-17 | a string read back as a media option is that option's value |
| `Media.ParseValue` | SpectraFlow/frontend/src/components/SearchBar.js:7-17 | every option's value reads back as that option |
| `Media.ValueInjective` | SpectraFlow/frontend/src/components/SearchBar.js:7-17 | no two media options send the same query value |
| `EndToEnd.ToHttp` | SpectraFlow/frontend/src/App.js:98-103 | the backend receives the held token in `x-access-token`, the term unchanged, and the selected media option's value |
| `EndToEnd.OutcomeOf` | SpectraFlow/frontend/src/App.js:98-111 | a 2xx response carrying an item list is a success with exactly those items; a missing or non-2xx response is a failure; a 2xx response with another body, which the route never sends (`SearchRoute.SuccessCarriesItems`), is also a failure |
| `EndToEnd.Search` | SpectraFlow/frontend/src/App.js:69-117 | an end-to-end search issues the same request as the frontend's handler |
| `EndToEnd.SearchShowsReshapedResults` | SpectraFlow/frontend/src/App.js:98-106 | with a term, an accepted token and a working catalogue, a search shows exactly the reshaped catalogue results, with no error, not loading |
| `EndToEnd.SearchFailureShowsMessage` | SpectraFlow/frontend/src/App.js:107-111 | with a rejected token or a failing catalogue, a search shows no results and the fixed failure message |
| `EndToEnd.ShownResultsHaveDefaults` | SpectraFlow/backend/routes/itunes.js:61-68 | every result shown after a search has a non-empty title, artist, artwork and kind |

## Left out

- Token issuance (`POST /generate-token`): signing with `jsonwebtoken`, the `purpose` claim and the one-hour expiry are cryptography in a foreign library. The verifier is a parameter, so accepting or rejecting a given token is not modelled.
- Date formatting: `toLocaleDateString` depends on the server locale and is a parameter. The frontend's own date display in `ResultItem.js` is presentation.
- The HTTP clients: the calls to the catalogue and to the backend are network I/O and appear only as outcomes. A malformed upstream body, which makes the handler throw and answer 500, is folded into `FetchFailed`.
- JSON serialisation and parsing and the browser storage API are parameters or a map. The serialiser's round trip is an assumption of `FavouritesStore.LoadAfterSave`, not a proof.
- Asynchronous ordering: the race between the token fetched on mount and a search, overlapping searches, and state edits made while a request is pending. This is concurrency; the model runs each handler to completion.
- JavaScript dynamic typing: record fields of a type other than string or number, `NaN` ids, and the difference between `null` and `undefined` (both are `None`).
- Presentational components (`SearchBar`, `SearchResults`, `FavouriteList`, `ResultItem`) and the controlled-input setters for the term and media. They only render props and forward callbacks. Only the media options are modelled.
- Server wiring (CORS, body parsing, static files, the SPA fallback route, `listen`), environment loading, and all console logging.
- FavouritesStore.Load: the parser is a total function; `JSON.parse` throwing on malformed stored text, or returning something other than an array, makes the page fail on mount, and that failure is not modelled.
- EndToEnd.OutcomeOf: a 2xx response whose body is not an item list would be accepted by the HTTP client and stored as the results; the model treats it as a failure. The route never sends such a response (`SearchRoute.SuccessCarriesItems`), so end-to-end searches are unaffected.
