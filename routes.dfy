/** The HTTP request router: from a request's method and url, and what the
    file-access collaborator answers, to the calls made on the response. */
module Routes {
  import opened Wrappers
  import opened Text
  import opened Http

  /** The read-only configuration the router consults: the redirect target
      for "/", the files behind the two named pages, and the map from file
      extension (with its dot) to MIME type. */
  datatype Config = Config(
    homeLocation: string,
    homeHTML: string,
    controllerHTML: string,
    contentType: map<string, string>)

  /** The request line the router looks at: its HTTP method and its url. */
  datatype Request = Request(verb: string, url: string)

  /** What the collaborator's `getFileStream(path)` settles to: resolved with
      a stream and, perhaps, the file's type, or rejected with an error whose
      message is all the router looks at. */
  datatype FileLookup =
    | Resolved(fileType: Option<string>)
    | Rejected(message: string)

  /** The collaborator, as the answer it gives for each path. */
  type FileStreams = string -> FileLookup

  /** The router's first decision, made from the request alone. */
  datatype Route =
    | Redirect(location: string)
    | Lookup(path: string)
    | Unrouted

  /** The one terminal outcome of a request. */
  datatype Outcome =
    | Redirected(location: string)
    | Streaming(contentType: Option<string>)
    | NotFound
    | ServerError

  /** An outcome together with the argument the collaborator was called
      with, if it was called. */
  datatype Dispatch = Dispatch(calledWith: Option<string>, outcome: Outcome)

  const GET := "GET"
  const ROOT := "/"
  const HOME_ROUTE := "/home"
  const CONTROLLER_ROUTE := "/controller"
  /** The error code a file-system error for a missing file carries in its message. */
  const NOT_FOUND_MARKER := "ENOENT"

  /** The file asked for on a GET of `url` other than "/": a named page's
      file for the two page routes, the literal url for anything else. */
  function LookupPath(cfg: Config, url: string): (path: string)
    ensures url == HOME_ROUTE ==> path == cfg.homeHTML
    ensures url == CONTROLLER_ROUTE ==> path == cfg.controllerHTML
    ensures url != HOME_ROUTE && url != CONTROLLER_ROUTE ==> path == url
  {
    if url == HOME_ROUTE then cfg.homeHTML
    else if url == CONTROLLER_ROUTE then cfg.controllerHTML
    else url
  }

  /** The route chosen from the request alone: "/" redirects, any other GET
      looks a file up, and every other method is unrouted. */
  function RouteOf(cfg: Config, req: Request): (r: Route)
    ensures r.Redirect? <==> req.verb == GET && req.url == ROOT
    ensures r.Redirect? ==> r.location == cfg.homeLocation
    ensures r.Unrouted? <==> req.verb != GET
    ensures r.Lookup? ==> r.path == LookupPath(cfg, req.url)
  {
    if req.verb == GET && req.url == ROOT then Redirect(cfg.homeLocation)
    else if req.verb == GET then Lookup(LookupPath(cfg, req.url))
    else Unrouted
  }

  /** Whether a rejection means that the file does not exist. */
  predicate IsNotFoundError(message: string): (b: bool)
    ensures b <==> exists i :: OccursAt(message, NOT_FOUND_MARKER, i)
  {
    Includes(message, NOT_FOUND_MARKER)
  }

  /** The MIME type for a reported file type, when the map knows it. */
  function ContentTypeFor(cfg: Config, fileType: Option<string>): (mime: Option<string>)
    ensures mime.Some? <==> fileType.Some? && fileType.value in cfg.contentType
    ensures mime.Some? ==> mime.value == cfg.contentType[fileType.value]
  {
    if fileType.Some? && fileType.value in cfg.contentType
    then Some(cfg.contentType[fileType.value])
    else None
  }

  /** The outcome of a rejected lookup. */
  function FailureOutcome(message: string): (o: Outcome)
    ensures o == NotFound || o == ServerError
    ensures o == NotFound <==> exists i :: OccursAt(message, NOT_FOUND_MARKER, i)
  {
    if IsNotFoundError(message) then NotFound else ServerError
  }

  /** The router's decision for one request. */
  function Decide(cfg: Config, req: Request, files: FileStreams): (d: Dispatch)
    // the collaborator is consulted for every GET except "/", and for nothing else
    ensures d.calledWith.Some? <==> req.verb == GET && req.url != ROOT
    ensures d.calledWith.Some? ==> d.calledWith.value == LookupPath(cfg, req.url)
    ensures d.outcome.Redirected? <==> req.verb == GET && req.url == ROOT
    ensures d.outcome.Redirected? ==> d.outcome.location == cfg.homeLocation
    // a stream is served exactly when the lookup succeeded
    ensures d.outcome.Streaming? <==> d.calledWith.Some? && files(d.calledWith.value).Resolved?
    ensures d.outcome.Streaming? && d.outcome.contentType.Some? <==>
      d.calledWith.Some? && files(d.calledWith.value).Resolved? &&
      files(d.calledWith.value).fileType.Some? && files(d.calledWith.value).fileType.value in cfg.contentType
    ensures d.outcome.Streaming? && d.outcome.contentType.Some? ==>
      d.outcome.contentType.value == cfg.contentType[files(d.calledWith.value).fileType.value]
    // a server error is exactly a lookup failure that is not a missing file
    ensures d.outcome == ServerError <==>
      d.calledWith.Some? && files(d.calledWith.value).Rejected? &&
      !(exists i :: OccursAt(files(d.calledWith.value).message, NOT_FOUND_MARKER, i))
  {
    match RouteOf(cfg, req)
    case Redirect(location) => Dispatch(None, Redirected(location))
    case Unrouted => Dispatch(None, NotFound)
    case Lookup(path) =>
      match files(path)
      case Resolved(fileType) => Dispatch(Some(path), Streaming(ContentTypeFor(cfg, fileType)))
      case Rejected(message) => Dispatch(Some(path), FailureOutcome(message))
  }

  /** The calls on the response that deliver an outcome. */
  function Render(o: Outcome): (trace: seq<Event>)
    ensures Complete(trace)
    ensures Observe(trace) == Some(o)
  {
    match o
    case Redirected(location) => [WriteHead(302, Some(map["Location" := location])), End]
    case Streaming(None) => [Pipe]
    case Streaming(Some(mime)) => [WriteHead(200, Some(map["Content-Type" := mime])), Pipe]
    case NotFound => [WriteHead(404, None), End]
    case ServerError => [WriteHead(500, None), End]
  }

  /** What a client can tell from the calls on the response: the outcome
      they deliver, or None for a sequence the router never produces. */
  function Observe(trace: seq<Event>): Option<Outcome>
  {
    if |trace| == 1 && trace[0] == Pipe then
      Some(Streaming(None))
    else if |trace| == 2 && trace[0].WriteHead? then
      var status, headers, last := trace[0].status, trace[0].headers, trace[1];
      if status == 302 && last == End && headers.Some? && headers.value.Keys == {"Location"} then
        Some(Redirected(headers.value["Location"]))
      else if status == 200 && last == Pipe && headers.Some? && headers.value.Keys == {"Content-Type"} then
        Some(Streaming(Some(headers.value["Content-Type"])))
      else if status == 404 && last == End && headers.None? then
        Some(NotFound)
      else if status == 500 && last == End && headers.None? then
        Some(ServerError)
      else
        None
    else
      None
  }

  /** Every call made on the response for a request, in order. */
  function Respond(cfg: Config, req: Request, files: FileStreams): seq<Event>
  {
    Render(Decide(cfg, req, files).outcome)
  }

  /** Observe inverts Render: a trace the client can read is the rendering
      of exactly the outcome read from it, so distinct outcomes never share
      a response. */
  lemma ObserveSound(trace: seq<Event>, o: Outcome)
    requires Observe(trace) == Some(o)
    ensures Render(o) == trace
  {
    if |trace| == 2 && trace[0].WriteHead? && trace[0].headers.Some? {
      var h := trace[0].headers.value;
      if h.Keys == {"Location"} {
        assert h == map["Location" := h["Location"]];
      }
      if h.Keys == {"Content-Type"} {
        assert h == map["Content-Type" := h["Content-Type"]];
      }
    }
  }

  /** Translation of a rejected lookup, as the router's catch handler does it. */
  method HandleError(message: string, response: Response)
    modifies response
    ensures response.events == old(response.events) + Render(FailureOutcome(message))
  {
    if IsNotFoundError(message) {
      response.WriteHead(404, None);
      response.End();
    } else {
      response.WriteHead(500, None);
      response.End();
    }
  }

  /** The request handler: routes the request, asks the collaborator for
      the file where the route needs one, and answers on `response`.
      `calledWith` is the argument the collaborator received. */
  method Handler(cfg: Config, request: Request, files: FileStreams, response: Response)
    returns (calledWith: Option<string>)
    modifies response
    ensures calledWith == Decide(cfg, request, files).calledWith
    ensures response.events == old(response.events) + Respond(cfg, request, files)
  {
    var verb, url := request.verb, request.url;
    if verb == GET && url == ROOT {
      response.WriteHead(302, Some(map["Location" := cfg.homeLocation]));
      response.End();
      return None;
    }
    if verb == GET {
      var path;
      if url == HOME_ROUTE {
        path := cfg.homeHTML;
      } else if url == CONTROLLER_ROUTE {
        path := cfg.controllerHTML;
      } else {
        path := url;
      }
      calledWith := Some(path);
      match files(path) {
        case Rejected(message) =>
          HandleError(message, response);
        case Resolved(fileType) =>
          if fileType.Some? && fileType.value in cfg.contentType {
            response.WriteHead(200, Some(map["Content-Type" := cfg.contentType[fileType.value]]));
          }
          response.Pipe();
      }
      return;
    }
    response.WriteHead(404, None);
    response.End();
    return None;
  }
}
