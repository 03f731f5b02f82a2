# HTTP request router, modelled in Dafny

This project models `handler`, the request router of a small Node HTTP server
(`server/routes.js`). The router looks at a request's method and url. Then it
does one of three things:

- it redirects `GET /` to the configured home location;
- on any other `GET` it asks the file-access collaborator
  (`Controller.getFileStream`) for a file stream: the home or controller
  page's file for `/home` and `/controller`, the literal url for anything
  else;
- it answers everything else with 404.

A stream that resolves is piped into the response. It is preceded by
`writeHead(200, {'Content-Type': …})` only when the reported file type is a
key of the `CONTENT_TYPE` map. A rejected lookup ends the response with 404
when the file is missing and with 500 otherwise.

`server/routes.js` itself is not part of this model. Its behaviour is
reconstructed from the assertions of its unit test suite,
`tests/unit/server/routes.test.js`, which every lemma below follows.

Files:

- `wrappers.dfy`: `Option`.
- `text.dfy`: `Includes`, JavaScript's `String.prototype.includes`, proved
  equal to "the marker occurs at some index".
- `http.dfy`: the response as a sequence of calls. `Event` is one of
  `WriteHead(status, headers?)`, `End` and `Pipe`. `Response` is a class whose
  methods append one event each. `Complete` says a response is finished:
  at most one status write, then exactly one terminal call. `StatusOf` gives
  the status the client sees from a complete response, which is the transport's default 200 when
  `writeHead` is never called.
- `routes.dfy`: the router. `Config` holds the configuration the router
  reads: `location.home`, `pages.homeHTML`, `pages.controllerHTML` and
  `CONTENT_TYPE`. The collaborator is a function from path to `FileLookup`,
  which is either `Resolved(type?)` or `Rejected(message)`. `Decide` is the
  specification of the handler. It gives the collaborator's argument and the
  terminal `Outcome` (`Redirected`, `Streaming`, `NotFound` or `ServerError`).
  `Render` turns an outcome into calls on the response, and `Observe` reads
  an outcome back from them. `Handler` and `HandleError` are the imperative
  handler and its catch branch, proved against `Decide` and `Render`.
- `route_cases.dfy`: one lemma per behaviour the suite fixes, stated for
  every configuration and every collaborator, plus the status table.

The suite's two rejected lookups are plain `Error`s that differ only in their
message (tests/unit/server/routes.test.js:134 and :147). So the model keeps the
message and treats a failure as "file not found" exactly when the message
includes `ENOENT`, the file-system error code of the suite's missing-file
message.

`Routes.Respond` (every call made on the response for a request, that is
`Render` after `Decide`) and `Routes.Observe` (what a client can read back
from those calls) are the model's own helpers. What `Observe` satisfies is stated
by the contracts of `Routes.Render` and `Routes.ObserveSound`.

## Model

| member | source | states |
|---|---|---|
| `Text.Includes` | tests/unit/server/routes.test.js:129-153 | the message test is true exactly when the marker occurs at some index of the message |
| `Routes.LookupPath` | tests/unit/server/routes.test.js:37-90 | `/home` asks for `pages.homeHTML`, `/controller` for `pages.controllerHTML`, and any other url for itself |
| `Routes.RouteOf` | tests/unit/server/routes.test.js:27-126 | the route is a redirect to `location.home` exactly for `GET /`, unrouted exactly for a non-GET, and otherwise a lookup of `LookupPath`'s file |
| `Routes.IsNotFoundError` | tests/unit/server/routes.test.js:129-153 | a rejection message means "file not found" exactly when `ENOENT` occurs at some index of it |
| `Routes.ContentTypeFor` | tests/unit/server/routes.test.js:95-117 | a MIME type is chosen exactly when the reported type is a key of `CONTENT_TYPE`, and it is `CONTENT_TYPE[type]` |
| `Http.StatusOf` | tests/unit/server/routes.test.js:31-151 | for a complete response, the status is the one its `writeHead` gives, and 200 when `writeHead` is never called |
| `Routes.FailureOutcome` | tests/unit/server/routes.test.js:129-153 | a rejection becomes either NotFound or ServerError, and NotFound exactly when the message contains `ENOENT` |
| `Routes.Decide` | tests/unit/server/routes.test.js:27-153 | the collaborator is called exactly for a GET other than `/`, with the page's file or the literal url; a redirect happens exactly for `GET /`, to `location.home`; a stream is served exactly when the lookup resolved, with a Content-Type exactly when the type is a key of `CONTENT_TYPE`, and then `CONTENT_TYPE[type]`; 500 exactly for a rejection that is not a missing file |
| `Routes.Render` | tests/unit/server/routes.test.js:27-153 | every outcome gives a complete response (at most one writeHead, then exactly one `end` or `pipe`), from which `Observe` recovers that outcome |
| `Routes.ObserveSound` | tests/unit/server/routes.test.js:27-153 | any sequence of response calls that `Observe` accepts is the rendering of the outcome it reads, so no two outcomes share a response |
| `Routes.HandleError` | tests/unit/server/routes.test.js:129-153 | the catch branch appends `writeHead(404)`, `end()` for a missing file and `writeHead(500)`, `end()` otherwise |
| `Routes.Handler` | tests/unit/server/routes.test.js:27-153 | the handler calls the collaborator with `Decide`'s argument and appends to the response exactly the calls that render `Decide`'s outcome |
| `Http.Response.WriteHead` | tests/unit/server/routes.test.js:31-33 | appends one `writeHead` call with its status and headers, if any |
| `Http.Response.End` | tests/unit/server/routes.test.js:34 | appends one `end()` call |
| `Http.Response.Pipe` | tests/unit/server/routes.test.js:52 | appends one pipe of a stream into the response |
| `RouteCases.RootRedirects` | tests/unit/server/routes.test.js:27-35 | `GET /` gives `writeHead(302, {Location: location.home})` then `end()`, and does not call the collaborator |
| `RouteCases.HomePageStreams` | tests/unit/server/routes.test.js:37-53 | `GET /home` calls the collaborator with exactly `pages.homeHTML`; on success the stream is piped as the last call, alone when no type is reported |
| `RouteCases.ControllerPageStreams` | tests/unit/server/routes.test.js:55-71 | `GET /controller` calls the collaborator with exactly `pages.controllerHTML`; on success the stream is piped as the last call, alone when no type is reported |
| `RouteCases.LiteralPathLookup` | tests/unit/server/routes.test.js:73-90 | a GET of any url other than `/`, `/home` and `/controller` calls the collaborator with that url unchanged |
| `RouteCases.UnmappedTypeStreamsBare` | tests/unit/server/routes.test.js:77-92 | a resolved lookup whose type is absent or not a key of `CONTENT_TYPE` is piped and `writeHead` is never called |
| `RouteCases.MappedTypeWritesContentType` | tests/unit/server/routes.test.js:95-117 | a resolved lookup whose type is a key of `CONTENT_TYPE` gives `writeHead(200, {'Content-Type': CONTENT_TYPE[type]})` then the pipe |
| `RouteCases.UnroutedNotFound` | tests/unit/server/routes.test.js:119-126 | any non-GET request gives `writeHead(404)` then `end()` |
| `RouteCases.LookupFailure` | tests/unit/server/routes.test.js:129-153 | a rejected lookup gives `writeHead(404)` or `writeHead(500)`, by the message, then `end()`, and never a pipe |
| `RouteCases.SuiteErrorMessages` | tests/unit/server/routes.test.js:134-147 | the suite's `ENOENT` message classifies as not found and its bare `Error:` as a server error |
| `RouteCases.StatusTable` | tests/unit/server/routes.test.js:27-153 | the final status is 302 exactly for `GET /`, 200 exactly for a resolved lookup, 404 exactly for a non-GET or a missing file, 500 exactly for any other lookup failure |

## Left out

- Byte streams, `Readable` construction and the semantics of `pipe`: a piped stream is the single opaque event `Pipe`.
- `Controller.getFileStream` and file-system access, including how it works out a file's type from its extension: the collaborator is an input function from path to outcome.
- Loading `config.js` and the test helpers: `pages`, `location` and `CONTENT_TYPE` are the fields of `Config`.
- Promises and `await`: a lookup's settled value is taken directly. Jest's mocks and spies become the `calledWith` result and the recorded response calls.
- The HTTP transport: only the calls made on the response object are modelled, and a response that is never given `writeHead` is read as status 200.
- Logging of errors in the catch branch: it has no observable effect on the response.
- `Routes.Decide`: never calling the collaborator for `GET /` or an unrouted request is the model's choice. The suite does not assert it.
- `Routes.Decide`: the named pages use the same Content-Type rule as literal paths. The suite exercises them only with a result that reports no type, where both readings agree.
- `Routes.IsNotFoundError`: the predicate `server/routes.js` applies to the error message is not shown; the `ENOENT` marker is inferred from the suite's two messages.
