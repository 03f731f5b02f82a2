/** The behaviour the router's test suite fixes, one lemma per kind of
    request, each stated for every configuration and every collaborator. */
module RouteCases {
  import opened Wrappers
  import opened Text
  import opened Http
  import opened Routes

  /** GET "/" redirects to the home location and ends the response, without
      consulting the collaborator. */
  lemma RootRedirects(cfg: Config, files: FileStreams)
    ensures Decide(cfg, Request(GET, ROOT), files).calledWith == None
    ensures Respond(cfg, Request(GET, ROOT), files)
         == [WriteHead(302, Some(map["Location" := cfg.homeLocation])), End]
  {
  }

  /** GET "/home" asks for exactly the home page's file; when that resolves,
      the stream is piped into the response as its last call. */
  lemma HomePageStreams(cfg: Config, files: FileStreams)
    ensures Decide(cfg, Request(GET, HOME_ROUTE), files).calledWith == Some(cfg.homeHTML)
    ensures files(cfg.homeHTML).Resolved? ==>
      var trace := Respond(cfg, Request(GET, HOME_ROUTE), files);
      Pipe in trace && trace[|trace| - 1] == Pipe
    ensures files(cfg.homeHTML) == Resolved(None) ==>
      Respond(cfg, Request(GET, HOME_ROUTE), files) == [Pipe]
  {
  }

  /** GET "/controller" asks for exactly the controller page's file; when
      that resolves, the stream is piped into the response as its last call. */
  lemma ControllerPageStreams(cfg: Config, files: FileStreams)
    ensures Decide(cfg, Request(GET, CONTROLLER_ROUTE), files).calledWith == Some(cfg.controllerHTML)
    ensures files(cfg.controllerHTML).Resolved? ==>
      var trace := Respond(cfg, Request(GET, CONTROLLER_ROUTE), files);
      Pipe in trace && trace[|trace| - 1] == Pipe
    ensures files(cfg.controllerHTML) == Resolved(None) ==>
      Respond(cfg, Request(GET, CONTROLLER_ROUTE), files) == [Pipe]
  {
  }

  /** A GET of any other url asks the collaborator for that url, unchanged. */
  lemma LiteralPathLookup(cfg: Config, files: FileStreams, url: string)
    requires url != ROOT && url != HOME_ROUTE && url != CONTROLLER_ROUTE
    ensures Decide(cfg, Request(GET, url), files).calledWith == Some(url)
  {
  }

  /** A resolved lookup whose type is absent or unknown to the content-type
      map is piped bare: writeHead is never called. */
  lemma UnmappedTypeStreamsBare(cfg: Config, req: Request, files: FileStreams, fileType: Option<string>)
    requires req.verb == GET && req.url != ROOT
    requires files(LookupPath(cfg, req.url)) == Resolved(fileType)
    requires fileType.None? || fileType.value !in cfg.contentType
    ensures Respond(cfg, req, files) == [Pipe]
    ensures forall e :: e in Respond(cfg, req, files) ==> !e.WriteHead?
  {
  }

  /** A resolved lookup whose type the content-type map knows gets status
      200 with that MIME type as Content-Type, then the stream. */
  lemma MappedTypeWritesContentType(cfg: Config, req: Request, files: FileStreams, fileType: string)
    requires req.verb == GET && req.url != ROOT
    requires files(LookupPath(cfg, req.url)) == Resolved(Some(fileType))
    requires fileType in cfg.contentType
    ensures Respond(cfg, req, files)
         == [WriteHead(200, Some(map["Content-Type" := cfg.contentType[fileType]])), Pipe]
  {
  }

  /** Any method other than GET, on any url, is answered 404 with no body. */
  lemma UnroutedNotFound(cfg: Config, req: Request, files: FileStreams)
    requires req.verb != GET
    ensures Decide(cfg, req, files) == Dispatch(None, NotFound)
    ensures Respond(cfg, req, files) == [WriteHead(404, None), End]
  {
  }

  /** A rejected lookup ends the response with 404 when the file is missing
      and 500 otherwise; no stream is piped. */
  lemma LookupFailure(cfg: Config, req: Request, files: FileStreams, message: string)
    requires req.verb == GET && req.url != ROOT
    requires files(LookupPath(cfg, req.url)) == Rejected(message)
    ensures Respond(cfg, req, files)
         == [WriteHead(if IsNotFoundError(message) then 404 else 500, None), End]
    ensures Pipe !in Respond(cfg, req, files)
  {
  }

  /** The two rejections of the suite: a missing file's error and a bare
      "Error:" fall on either side of the not-found test. */
  lemma SuiteErrorMessages()
    ensures FailureOutcome("Error: ENOENT: no such file or directory") == NotFound
    ensures FailureOutcome("Error:") == ServerError
  {
    var missing := "Error: ENOENT: no such file or directory";
    assert missing[7] == 'E' && missing[8] == 'N' && missing[9] == 'O';
    assert missing[10] == 'E' && missing[11] == 'N' && missing[12] == 'T';
    assert missing[7..13] == NOT_FOUND_MARKER;
    assert OccursAt(missing, NOT_FOUND_MARKER, 7);
    var bare := "Error:";
    // |bare| == |NOT_FOUND_MARKER|, so only index 0 could match, and the second characters differ
    assert bare[0..6][1] != NOT_FOUND_MARKER[1];
  }

  /** The status every request ends with, by kind of request: 302 for the
      root, 200 for a served file, 404 for an unrouted request or a missing
      file, 500 for any other lookup failure, and nothing else. */
  lemma StatusTable(cfg: Config, req: Request, files: FileStreams)
    ensures var status := StatusOf(Respond(cfg, req, files));
      var looksUp := req.verb == GET && req.url != ROOT;
      var lookup := files(LookupPath(cfg, req.url));
      && (status == 302 <==> req.verb == GET && req.url == ROOT)
      && (status == 200 <==> looksUp && lookup.Resolved?)
      && (status == 404 <==> req.verb != GET || (looksUp && lookup.Rejected? && IsNotFoundError(lookup.message)))
      && (status == 500 <==> looksUp && lookup.Rejected? && !IsNotFoundError(lookup.message))
  {
  }
}
