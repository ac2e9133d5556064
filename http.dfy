/**
 * The HTTP transport (pkg/watermark/transport/http.go): request decoders,
 * the response encoder and its error table, the response writer they write
 * into, the route table NewHTTPHandler registers, and the go-kit server that
 * runs decode, endpoint and encode for a matched route.
 *
 * JSON is abstract: a request `Body` records what decoding it into each
 * request shape yields (a value, or the decoder's error message), and what
 * the writer receives is a `Json` value, not bytes. Decode failures are not
 * passed to encodeError: NewHTTPHandler registers no error encoder, so they go
 * to go-kit's default one, which is not part of this model.
 */
module HttpTransport {
  import opened Wrappers
  import opened Internal
  import opened Watermark
  import opened Errors
  import opened Requests
  import opened Responses
  import opened Values
  import opened Endpoints
  import opened Paths

  const StatusOK := 200
  const StatusBadRequest := 400
  const StatusNotFound := 404
  const StatusInternalServerError := 500

  const ContentTypeJson := "application/json; charset=utf-8"

  /* ---------- requests ---------- */

  /** What `json.NewDecoder(r.Body).Decode(&req)` yields for each request shape that reads the body. */
  datatype Body = Body(
    asFind: Result<seq<Filter>, string>,
    asWatermark: Result<(string, string), string>,
    asCreateDocument: Result<Option<Document>, string>)

  datatype HttpRequest = HttpRequest(verb: string, path: string, contentLength: int, body: Body)

  /**
   * A declared length of exactly zero is an empty search, whatever the body;
   * any other length, -1 (unknown) included, goes to the JSON decoder, whose
   * error is returned with no request.
   */
  function DecodeHttpFindRequest(contentLength: int, body: Body): (r: Returned)
    ensures contentLength == 0 ==> r == Returned(Req(FindRequest([])), None)
    ensures contentLength != 0 && body.asFind.Success? ==> r == Returned(Req(FindRequest(body.asFind.value)), None)
    ensures contentLength != 0 && body.asFind.Failure? ==> r == Returned(Nil, Some(Other(body.asFind.error)))
  {
    if contentLength == 0 then Returned(Req(FindRequest([])), None)
    else match body.asFind
      case Failure(e) => Returned(Nil, Some(Other(e)))
      case Success(filters) => Returned(Req(FindRequest(filters)), None)
  }

  /** The ticket is the `id` path variable, "" when there is none; this decoder never fails. */
  function DecodeHttpStatusRequest(vars: map<string, string>): (r: Returned)
    ensures r.Returned? && r.err == None && r.value.Req? && r.value.request.StatusRequest?
    ensures "id" in vars ==> r.value.request.ticketID == vars["id"]
    ensures "id" !in vars ==> r.value.request.ticketID == ""
  {
    Returned(Req(StatusRequest(if "id" in vars then vars["id"] else "")), None)
  }

  function DecodeHttpWatermarkRequest(body: Body): (r: Returned)
    ensures body.asWatermark.Success? ==>
              r == Returned(Req(WatermarkRequest(body.asWatermark.value.0, body.asWatermark.value.1)), None)
    ensures body.asWatermark.Failure? ==> r == Returned(Nil, Some(Other(body.asWatermark.error)))
  {
    match body.asWatermark
    case Failure(e) => Returned(Nil, Some(Other(e)))
    case Success((ticketID, mark)) => Returned(Req(WatermarkRequest(ticketID, mark)), None)
  }

  function DecodeHttpCreateDocumentRequest(body: Body): (r: Returned)
    ensures body.asCreateDocument.Success? ==>
              r == Returned(Req(CreateDocumentRequest(body.asCreateDocument.value)), None)
    ensures body.asCreateDocument.Failure? ==> r == Returned(Nil, Some(Other(body.asCreateDocument.error)))
  {
    match body.asCreateDocument
    case Failure(e) => Returned(Nil, Some(Other(e)))
    case Success(document) => Returned(Req(CreateDocumentRequest(document)), None)
  }

  function DecodeHttpServiceStatusRequest(): (r: Returned)
    ensures r == Returned(Req(ServiceStatusRequest), None)
  {
    Returned(Req(ServiceStatusRequest), None)
  }

  /**
   * The decoder a route's server uses. It never panics; what it decodes is
   * the record of its own operation, and what it fails with is the JSON
   * decoder's error, never one of the two sentinels.
   */
  function DecodeHttpRequest(decoder: Operation, request: HttpRequest, vars: map<string, string>): (r: Returned)
    ensures r.Returned?
    ensures r.err.None? ==> Accepts(decoder, r.value)
    ensures r.err.Some? ==> r.value == Nil && r.err.value.Other?
    ensures r.err.Some? ==> decoder in {WatermarkOp, CreateDocumentOp} || (decoder == FindOp && request.contentLength != 0)
  {
    match decoder
    case FindOp => DecodeHttpFindRequest(request.contentLength, request.body)
    case StatusOp => DecodeHttpStatusRequest(vars)
    case WatermarkOp => DecodeHttpWatermarkRequest(request.body)
    case CreateDocumentOp => DecodeHttpCreateDocumentRequest(request.body)
    case ServiceStatusOp => DecodeHttpServiceStatusRequest()
  }

  /* ---------- the response writer ---------- */

  /** What is written to the body: an object of string fields, or the JSON encoding of a value. */
  datatype Json = Object(fields: map<string, string>) | Encoded(value: Value)

  /**
   * An http.ResponseWriter: its header map, the status once sent, and the
   * JSON values written. The status is fixed by the first WriteHeader, or
   * by the first write, which sends 200. `failure` is the error every write
   * returns when the connection no longer accepts data.
   */
  class ResponseWriter {
    var header: map<string, string>
    var status: Option<int>
    var body: seq<Json>
    const failure: Option<Error>

    constructor (failure: Option<Error>)
      ensures header == map[] && status == None && body == [] && this.failure == failure
    {
      header, status, body := map[], None, [];
      this.failure := failure;
    }

    method SetHeader(key: string, value: string)
      modifies this
      ensures header == old(header)[key := value]
      ensures status == old(status) && body == old(body)
    {
      header := header[key := value];
    }

    method WriteHeader(code: int)
      modifies this
      ensures status == if old(status).None? then Some(code) else old(status)
      ensures header == old(header) && body == old(body)
    {
      if status.None? {
        status := Some(code);
      }
    }

    method Write(j: Json) returns (err: Option<Error>)
      modifies this
      ensures err == failure
      ensures status == if old(status).None? then Some(StatusOK) else old(status)
      ensures body == if failure.None? then old(body) + [j] else old(body)
      ensures header == old(header)
    {
      if status.None? {
        status := Some(StatusOK);
      }
      if failure.None? {
        body := body + [j];
      }
      err := failure;
    }
  }

  /* ---------- encoding ---------- */

  /**
   * The status encodeError sends: 404 for the unknown-path-parameter
   * sentinel, 400 for the invalid-argument sentinel, 500 for every other
   * error, whatever its message.
   */
  function StatusFor(err: Error): (code: int)
    ensures code == StatusNotFound <==> err == PathParamNotFound
    ensures code == StatusBadRequest <==> err == InvalidArgument
    ensures code == StatusInternalServerError <==> err.Other?
  {
    match err
    case PathParamNotFound => StatusNotFound
    case InvalidArgument => StatusBadRequest
    case Other(_) => StatusInternalServerError
  }

  /** The error envelope: a single `error` key holding the error's message. */
  function ErrorBody(err: Error): (j: Json)
    ensures j.Object? && j.fields.Keys == {"error"} && j.fields["error"] == err.Message()
  {
    Object(map["error" := err.Message()])
  }

  method EncodeError(err: Error, w: ResponseWriter)
    modifies w
    ensures w.header == old(w.header)["Content-Type" := ContentTypeJson]
    ensures w.status == if old(w.status).None? then Some(StatusFor(err)) else old(w.status)
    ensures w.body == if w.failure.None? then old(w.body) + [ErrorBody(err)] else old(w.body)
  {
    w.SetHeader("Content-Type", ContentTypeJson);
    if err == PathParamNotFound {
      w.WriteHeader(StatusNotFound);
    } else if err == InvalidArgument {
      w.WriteHeader(StatusBadRequest);
    } else {
      w.WriteHeader(StatusInternalServerError);
    }
    var ignored := w.Write(ErrorBody(err));
  }

  /**
   * An error value goes to encodeError and nil is returned; anything else is
   * written as JSON, leaving the header alone, and the write's error returned.
   */
  method EncodeResponse(response: Value, w: ResponseWriter) returns (err: Option<Error>)
    modifies w
    ensures response.Fault? ==>
              && err == None
              && w.header == old(w.header)["Content-Type" := ContentTypeJson]
              && w.status == (if old(w.status).None? then Some(StatusFor(response.error)) else old(w.status))
              && w.body == (if w.failure.None? then old(w.body) + [ErrorBody(response.error)] else old(w.body))
    ensures !response.Fault? ==>
              && err == w.failure
              && w.header == old(w.header)
              && w.status == (if old(w.status).None? then Some(StatusOK) else old(w.status))
              && w.body == (if w.failure.None? then old(w.body) + [Encoded(response)] else old(w.body))
  {
    if response.Fault? {
      EncodeError(response.error, w);
      return None;
    }
    err := w.Write(Encoded(response));
  }

  /* ---------- servers and routing ---------- */

  /** httptransport.NewServer(endpoint, decoder, encodeResponse), with no options. */
  datatype HttpServer = HttpServer(endpoint: Endpoint, decoder: Operation)

  /**
   * What a server does with a request up to the encoder: the decoder's
   * error, or the endpoint's result on the decoded request. A server whose
   * decoder and endpoint serve the same operation never panics, and its
   * only errors are the JSON decoder's.
   */
  function Serve(server: HttpServer, request: HttpRequest, vars: map<string, string>): (r: Returned)
    ensures server.endpoint.op == server.decoder ==> r.Returned?
    ensures r.Returned? && r.err.Some? ==> r.value == Nil && r.err.value.Other?
    ensures r.Returned? && r.err.None? ==> r.value.Resp? && r.value.response.Op() == server.endpoint.op
  {
    match DecodeHttpRequest(server.decoder, request, vars)
    case Panicked => Panicked
    case Returned(decoded, Some(e)) => Returned(Nil, Some(e))
    case Returned(decoded, None) => Invoke(server.endpoint, decoded)
  }

  /** r.Methods(verb).Path(path).Handler(server): one route, its path template parsed at registration. */
  datatype Route = Route(verb: string, template: seq<Segment>, server: HttpServer)

  /** A gorilla/mux router: its routes in registration order. */
  class Router {
    var routes: seq<Route>

    constructor ()
      ensures routes == []
    {
      routes := [];
    }

    /** Registers a route for a method and a path template, after the routes already registered. */
    method Handle(verb: string, template: seq<Segment>, server: HttpServer)
      modifies this
      ensures routes == old(routes) + [Route(verb, template, server)]
    {
      routes := routes + [Route(verb, template, server)];
    }
  }

  /*
   * The registered paths, as their '/'-separated segments: Join makes them
   * "/api/v1/watermark/healthz", "/api/v1/watermark/documents/{id}/status",
   * "/api/v1/watermark/documents" and "/api/v1/watermark/watermark" (the
   * *PathJoins lemmas), and SplitJoin gives them back from those strings.
   */
  const HealthzPath := ["", "api", "v1", "watermark", "healthz"]
  const StatusPath := ["", "api", "v1", "watermark", "documents", "{id}", "status"]
  const DocumentsPath := ["", "api", "v1", "watermark", "documents"]
  const WatermarkPath := ["", "api", "v1", "watermark", "watermark"]

  lemma HealthzPathJoins()
    ensures Join(HealthzPath) == "/api/v1/watermark/healthz"
  {
  }

  lemma StatusPathJoins()
    ensures Join(StatusPath) == "/api/v1/watermark/documents/{id}/status"
  {
  }

  lemma DocumentsPathJoins()
    ensures Join(DocumentsPath) == "/api/v1/watermark/documents"
  {
  }

  lemma WatermarkPathJoins()
    ensures Join(WatermarkPath) == "/api/v1/watermark/watermark"
  {
  }

  /* The templates those paths parse to (the *Parses lemmas below). */
  function HealthzTemplate(): seq<Segment>
  {
    [Literal(""), Literal("api"), Literal("v1"), Literal("watermark"), Literal("healthz")]
  }

  function StatusTemplate(): seq<Segment>
  {
    [Literal(""), Literal("api"), Literal("v1"), Literal("watermark"), Literal("documents"), Variable("id"), Literal("status")]
  }

  function DocumentsTemplate(): seq<Segment>
  {
    [Literal(""), Literal("api"), Literal("v1"), Literal("watermark"), Literal("documents")]
  }

  function WatermarkTemplate(): seq<Segment>
  {
    [Literal(""), Literal("api"), Literal("v1"), Literal("watermark"), Literal("watermark")]
  }

  lemma HealthzParses()
    ensures Segments(HealthzPath) == HealthzTemplate()
  {
  }

  /** The status route's fifth segment is the variable `id`; every other one is literal. */
  lemma StatusParses()
    ensures Segments(StatusPath) == StatusTemplate()
  {
    assert SegmentOf("{id}") == Variable("id");
  }

  lemma DocumentsParses()
    ensures Segments(DocumentsPath) == DocumentsTemplate()
  {
  }

  lemma WatermarkParses()
    ensures Segments(WatermarkPath) == WatermarkTemplate()
  {
  }

  /**
   * The routes NewHTTPHandler registers, in its order: each serves its
   * operation with that operation's decoder and its slot's endpoint, under
   * GET or POST.
   */
  function RouteTable(eps: EndpointSet): (routes: seq<Route>)
    ensures |routes| == 5
    ensures forall i :: 0 <= i < |routes| ==>
              && routes[i].server.endpoint == Slot(eps, routes[i].server.decoder)
              && (routes[i].verb == "GET" || routes[i].verb == "POST")
  {
    [ Route("GET", HealthzTemplate(), HttpServer(eps.serviceStatus, ServiceStatusOp)),
      Route("GET", StatusTemplate(), HttpServer(eps.status, StatusOp)),
      Route("GET", DocumentsTemplate(), HttpServer(eps.find, FindOp)),
      Route("POST", DocumentsTemplate(), HttpServer(eps.createDocument, CreateDocumentOp)),
      Route("POST", WatermarkTemplate(), HttpServer(eps.watermark, WatermarkOp)) ]
  }

  method NewHttpHandler(eps: EndpointSet) returns (r: Router)
    ensures fresh(r) && r.routes == RouteTable(eps)
  {
    r := new Router();
    r.Handle("GET", HealthzTemplate(), HttpServer(eps.serviceStatus, ServiceStatusOp));
    r.Handle("GET", StatusTemplate(), HttpServer(eps.status, StatusOp));
    r.Handle("GET", DocumentsTemplate(), HttpServer(eps.find, FindOp));
    r.Handle("POST", DocumentsTemplate(), HttpServer(eps.createDocument, CreateDocumentOp));
    r.Handle("POST", WatermarkTemplate(), HttpServer(eps.watermark, WatermarkOp));
  }

  /** Every route's decoder and endpoint serve the same operation. */
  predicate Consistent(routes: seq<Route>)
  {
    forall i :: 0 <= i < |routes| ==> routes[i].server.endpoint.op == routes[i].server.decoder
  }

  datatype Dispatched = Handled(server: HttpServer, vars: map<string, string>) | MethodNotAllowed | NoRoute

  /** A route fully matches when both its method and its path do. */
  predicate FullMatch(route: Route, verb: string, segs: seq<string>)
  {
    route.verb == verb && Match(route.template, segs).Some?
  }

  /**
   * The router's choice: the first route matching method and path; when
   * none does, 405 if some route matched the path alone (`pathSeen` records
   * one among the routes already passed over), 404 otherwise.
   */
  function DispatchSegments(routes: seq<Route>, verb: string, segs: seq<string>, pathSeen: bool): (d: Dispatched)
    ensures d.Handled? ==> exists i :: && 0 <= i < |routes| && routes[i].verb == verb
                                       && routes[i].server == d.server && Match(routes[i].template, segs) == Some(d.vars)
    ensures pathSeen ==> !d.NoRoute?
    decreases |routes|
  {
    if routes == [] then (if pathSeen then MethodNotAllowed else NoRoute)
    else match Match(routes[0].template, segs)
      case None => DispatchSegments(routes[1..], verb, segs, pathSeen)
      case Some(vars) =>
        if routes[0].verb == verb then Handled(routes[0].server, vars)
        else DispatchSegments(routes[1..], verb, segs, true)
  }

  /** The router's answer to a method and a path: a registered route with its method and bindings, 405 or 404. */
  function Dispatch(routes: seq<Route>, verb: string, path: string): (d: Dispatched)
    ensures d.Handled? ==> exists i :: && 0 <= i < |routes| && routes[i].verb == verb
                                       && routes[i].server == d.server && Match(routes[i].template, Split(path)) == Some(d.vars)
    ensures d.NoRoute? <==> forall i :: 0 <= i < |routes| ==> Match(routes[i].template, Split(path)).None?
  {
    DispatchSpec(routes, verb, Split(path), false);
    DispatchSegments(routes, verb, Split(path), false)
  }

  /**
   * Dispatch picks the first full match with the variables it binds; it
   * answers 405 exactly when no route matches fully but some matches the
   * path, and 404 exactly when no route matches the path.
   */
  lemma {:induction false} DispatchSpec(routes: seq<Route>, verb: string, segs: seq<string>, pathSeen: bool)
    ensures var d := DispatchSegments(routes, verb, segs, pathSeen);
            d.Handled? <==> exists i :: 0 <= i < |routes| && FullMatch(routes[i], verb, segs)
    ensures var d := DispatchSegments(routes, verb, segs, pathSeen);
            d.Handled? ==> exists i :: && 0 <= i < |routes| && FullMatch(routes[i], verb, segs)
                                       && (forall j :: 0 <= j < i ==> !FullMatch(routes[j], verb, segs))
                                       && d == Handled(routes[i].server, Match(routes[i].template, segs).value)
    ensures var d := DispatchSegments(routes, verb, segs, pathSeen);
            d.NoRoute? <==> !pathSeen && forall i :: 0 <= i < |routes| ==> Match(routes[i].template, segs).None?
  {
    DispatchFirstMatch(routes, verb, segs, pathSeen);
    DispatchNoRoute(routes, verb, segs, pathSeen);
  }

  /** The route chosen is the first full match, and there is one exactly when some route matches fully. */
  lemma {:induction false} DispatchFirstMatch(routes: seq<Route>, verb: string, segs: seq<string>, pathSeen: bool)
    ensures var d := DispatchSegments(routes, verb, segs, pathSeen);
            d.Handled? <==> exists i :: 0 <= i < |routes| && FullMatch(routes[i], verb, segs)
    ensures var d := DispatchSegments(routes, verb, segs, pathSeen);
            d.Handled? ==> exists i :: && 0 <= i < |routes| && FullMatch(routes[i], verb, segs)
                                       && (forall j :: 0 <= j < i ==> !FullMatch(routes[j], verb, segs))
                                       && d == Handled(routes[i].server, Match(routes[i].template, segs).value)
    decreases |routes|
  {
    if routes != [] {
      var tail := routes[1..];
      var seen := pathSeen || Match(routes[0].template, segs).Some?;
      DispatchFirstMatch(tail, verb, segs, seen);
      assert forall i :: 0 < i < |routes| ==> routes[i] == tail[i - 1];
      if !FullMatch(routes[0], verb, segs) {
        assert DispatchSegments(routes, verb, segs, pathSeen) == DispatchSegments(tail, verb, segs, seen);
        var d := DispatchSegments(tail, verb, segs, seen);
        if d.Handled? {
          var k :| && 0 <= k < |tail| && FullMatch(tail[k], verb, segs)
                   && (forall j :: 0 <= j < k ==> !FullMatch(tail[j], verb, segs))
                   && d == Handled(tail[k].server, Match(tail[k].template, segs).value);
          assert routes[k + 1] == tail[k];
        }
      } else {
        assert FullMatch(routes[0], verb, segs);
      }
    }
  }

  /** 404 exactly when no route was passed over with a matching path and none matches the path. */
  lemma {:induction false} DispatchNoRoute(routes: seq<Route>, verb: string, segs: seq<string>, pathSeen: bool)
    ensures var d := DispatchSegments(routes, verb, segs, pathSeen);
            d.NoRoute? <==> !pathSeen && forall i :: 0 <= i < |routes| ==> Match(routes[i].template, segs).None?
    decreases |routes|
  {
    if routes != [] {
      var tail := routes[1..];
      var seen := pathSeen || Match(routes[0].template, segs).Some?;
      DispatchNoRoute(tail, verb, segs, seen);
      assert forall i :: 0 < i < |routes| ==> routes[i] == tail[i - 1];
    }
  }

  /* ---------- the route table ---------- */

  /** Matching a template with no variables binds nothing. */
  lemma MatchLiterals(template: seq<Segment>, segs: seq<string>)
    requires forall i :: 0 <= i < |template| ==> template[i].Literal?
    ensures Match(template, segs) == if Fits(template, segs) then Some(map[]) else None
  {
    if Fits(template, segs) {
      MatchComplete(template, segs);
      var vars := Match(template, segs).value;
      assert forall k :: k !in vars;
      assert vars == map[];
    }
  }

  /** A template without variables matches exactly its own segments. */
  lemma MatchLiteralPath(template: seq<Segment>, parts: seq<string>, segs: seq<string>)
    requires |template| == |parts|
    requires forall i :: 0 <= i < |parts| ==> template[i] == Literal(parts[i])
    ensures Match(template, segs) == if segs == parts then Some(map[]) else None
  {
    MatchLiterals(template, segs);
    if Fits(template, segs) {
      assert forall i :: 0 <= i < |parts| ==> segs[i] == parts[i];
    }
  }

  predicate HealthzShape(segs: seq<string>) { segs == ["", "api", "v1", "watermark", "healthz"] }
  predicate DocumentsShape(segs: seq<string>) { segs == ["", "api", "v1", "watermark", "documents"] }
  predicate WatermarkShape(segs: seq<string>) { segs == ["", "api", "v1", "watermark", "watermark"] }

  /** A request path with the status route's segments and some ticket in place of `{id}`. */
  predicate StatusShape(segs: seq<string>)
  {
    |segs| == 7 && segs[..5] == ["", "api", "v1", "watermark", "documents"] && segs[5] != "" && segs[6] == "status"
  }

  lemma MatchHealthz(segs: seq<string>)
    ensures Match(HealthzTemplate(), segs) == if HealthzShape(segs) then Some(map[]) else None
  {
    MatchLiteralPath(HealthzTemplate(), ["", "api", "v1", "watermark", "healthz"], segs);
  }

  lemma MatchDocuments(segs: seq<string>)
    ensures Match(DocumentsTemplate(), segs) == if DocumentsShape(segs) then Some(map[]) else None
  {
    MatchLiteralPath(DocumentsTemplate(), ["", "api", "v1", "watermark", "documents"], segs);
  }

  lemma MatchWatermark(segs: seq<string>)
    ensures Match(WatermarkTemplate(), segs) == if WatermarkShape(segs) then Some(map[]) else None
  {
    MatchLiteralPath(WatermarkTemplate(), ["", "api", "v1", "watermark", "watermark"], segs);
  }

  lemma StatusFits(segs: seq<string>)
    ensures Fits(StatusTemplate(), segs) <==> StatusShape(segs)
  {
    if StatusShape(segs) {
      forall i | 0 <= i < 5 ensures segs[i] == segs[..5][i] {}
    }
    if Fits(StatusTemplate(), segs) {
      assert segs[..5] == ["", "api", "v1", "watermark", "documents"];
    }
  }

  /** The status route matches exactly the status-shaped paths and binds `id` to the ticket segment. */
  lemma MatchStatus(segs: seq<string>)
    ensures Match(StatusTemplate(), segs) == if StatusShape(segs) then Some(map["id" := segs[5]]) else None
  {
    var template := StatusTemplate();
    StatusFits(segs);
    MatchSingleVariable(template, segs, 5);
  }

  /**
   * The API as a table of its own: which server each method and path
   * reach, with the variables bound, and where the answer is 405 or 404.
   */
  function RouteFor(eps: EndpointSet, verb: string, segs: seq<string>): Dispatched
  {
    if HealthzShape(segs) then
      (if verb == "GET" then Handled(HttpServer(eps.serviceStatus, ServiceStatusOp), map[]) else MethodNotAllowed)
    else if StatusShape(segs) then
      (if verb == "GET" then Handled(HttpServer(eps.status, StatusOp), map["id" := segs[5]]) else MethodNotAllowed)
    else if DocumentsShape(segs) then
      (if verb == "GET" then Handled(HttpServer(eps.find, FindOp), map[])
       else if verb == "POST" then Handled(HttpServer(eps.createDocument, CreateDocumentOp), map[])
       else MethodNotAllowed)
    else if WatermarkShape(segs) then
      (if verb == "POST" then Handled(HttpServer(eps.watermark, WatermarkOp), map[]) else MethodNotAllowed)
    else NoRoute
  }

  /** No two of the paths share a shape. */
  lemma ShapesExclusive(segs: seq<string>)
    ensures HealthzShape(segs) ==> !StatusShape(segs) && !DocumentsShape(segs) && !WatermarkShape(segs)
    ensures DocumentsShape(segs) ==> !StatusShape(segs) && !WatermarkShape(segs)
    ensures WatermarkShape(segs) ==> !StatusShape(segs)
  {
    if HealthzShape(segs) {
      assert segs[4][0] == 'h';
    }
    if DocumentsShape(segs) {
      assert segs[4][0] == 'd';
    }
  }

  /** Which templates of the table a request's segments match, and what they bind. */
  lemma TableMatches(eps: EndpointSet, segs: seq<string>)
    ensures var routes := RouteTable(eps);
            && Match(routes[0].template, segs) == (if HealthzShape(segs) then Some(map[]) else None)
            && Match(routes[1].template, segs) == (if StatusShape(segs) then Some(map["id" := segs[5]]) else None)
            && Match(routes[2].template, segs) == (if DocumentsShape(segs) then Some(map[]) else None)
            && Match(routes[3].template, segs) == (if DocumentsShape(segs) then Some(map[]) else None)
            && Match(routes[4].template, segs) == (if WatermarkShape(segs) then Some(map[]) else None)
  {
    MatchHealthz(segs);
    MatchStatus(segs);
    MatchDocuments(segs);
    MatchWatermark(segs);
  }

  /** The router built by NewHTTPHandler dispatches every request as the API table says. */
  lemma RouteTableDispatch(eps: EndpointSet, verb: string, path: string)
    ensures Dispatch(RouteTable(eps), verb, path) == RouteFor(eps, verb, Split(path))
  {
    var segs := Split(path);
    var routes := RouteTable(eps);
    TableMatches(eps, segs);
    ShapesExclusive(segs);
    var t1, t2, t3, t4 := routes[1..], routes[2..], routes[3..], routes[4..];
    assert t1[1..] == t2 && t2[1..] == t3 && t3[1..] == t4 && t4[1..] == [];
    assert t1[0] == routes[1] && t2[0] == routes[2] && t3[0] == routes[3] && t4[0] == routes[4];
    var m0, m1, m2, m3, m4 := Match(routes[0].template, segs), Match(routes[1].template, segs),
                              Match(routes[2].template, segs), Match(routes[3].template, segs),
                              Match(routes[4].template, segs);
    var s1 := m0.Some?;
    var s2 := s1 || m1.Some?;
    var s3 := s2 || m2.Some?;
    var s4 := s3 || m3.Some?;
    assert DispatchSegments(t4, verb, segs, s4) ==
      if m4.Some? && routes[4].verb == verb then Handled(routes[4].server, m4.value)
      else if s4 || m4.Some? then MethodNotAllowed else NoRoute;
    assert DispatchSegments(t3, verb, segs, s3) ==
      if m3.Some? && routes[3].verb == verb then Handled(routes[3].server, m3.value) else DispatchSegments(t4, verb, segs, s4);
    assert DispatchSegments(t2, verb, segs, s2) ==
      if m2.Some? && routes[2].verb == verb then Handled(routes[2].server, m2.value) else DispatchSegments(t3, verb, segs, s3);
    assert DispatchSegments(t1, verb, segs, s1) ==
      if m1.Some? && routes[1].verb == verb then Handled(routes[1].server, m1.value) else DispatchSegments(t2, verb, segs, s2);
    assert DispatchSegments(routes, verb, segs, false) ==
      if m0.Some? && routes[0].verb == verb then Handled(routes[0].server, m0.value) else DispatchSegments(t1, verb, segs, s1);
  }

  /** The five routes bind five distinct (method, path) pairs, so none is shadowed by an earlier one. */
  lemma RoutesDistinct(eps: EndpointSet)
    ensures var routes := RouteTable(eps);
            forall i, j :: 0 <= i < j < |routes| ==>
              (routes[i].verb, routes[i].template) != (routes[j].verb, routes[j].template)
  {
    assert HealthzTemplate()[4].text[0] == 'h';
    assert DocumentsTemplate()[4].text[0] == 'd';
    assert WatermarkTemplate()[4].text[0] == 'w';
    assert |StatusTemplate()| == 7;
  }

  /* ---------- serving ---------- */

  /** What a request came to: the router's 404 or 405, a failure before the encoder, a panic, or a response. */
  datatype HttpOutcome = NotFound | NotAllowed | Rejected(error: Error) | Crashed | Responded

  /**
   * Router.ServeHTTP followed by the chosen server's ServeHTTP. The router's
   * own 404 and 405 replies, and the error encoder a failure goes to, are
   * reported as the outcome with the writer untouched; a response goes
   * through encodeResponse, so the body gains its JSON encoding.
   */
  method ServeHttp(router: Router, request: HttpRequest, w: ResponseWriter) returns (outcome: HttpOutcome)
    modifies w
    ensures match Dispatch(router.routes, request.verb, request.path)
            case NoRoute => outcome == NotFound && unchanged(w)
            case MethodNotAllowed => outcome == NotAllowed && unchanged(w)
            case Handled(server, vars) =>
              match Serve(server, request, vars)
              case Panicked => outcome == Crashed && unchanged(w)
              case Returned(_, Some(e)) => outcome == Rejected(e) && unchanged(w)
              case Returned(response, None) =>
                && w.header == old(w.header)
                && w.status == (if old(w.status).None? then Some(StatusOK) else old(w.status))
                && w.body == (if w.failure.None? then old(w.body) + [Encoded(response)] else old(w.body))
                && outcome == (if w.failure.None? then Responded else Rejected(w.failure.value))
  {
    match Dispatch(router.routes, request.verb, request.path) {
      case NoRoute =>
        return NotFound;
      case MethodNotAllowed =>
        return NotAllowed;
      case Handled(server, vars) =>
        match Serve(server, request, vars) {
          case Panicked =>
            return Crashed;
          case Returned(_, Some(e)) =>
            return Rejected(e);
          case Returned(response, None) =>
            var err := EncodeResponse(response, w);
            outcome := if err.Some? then Rejected(err.value) else Responded;
        }
    }
  }

  /** Over the endpoints NewEndpointSet builds, every route pairs a decoder with its own operation's endpoint. */
  lemma RouteTableConsistent(svc: Service)
    ensures Consistent(RouteTable(NewEndpointSet(svc)))
  {
    var eps := NewEndpointSet(svc);
    assert Slot(eps, FindOp).op == FindOp && Slot(eps, StatusOp).op == StatusOp;
    assert Slot(eps, WatermarkOp).op == WatermarkOp && Slot(eps, CreateDocumentOp).op == CreateDocumentOp;
    assert Slot(eps, ServiceStatusOp).op == ServiceStatusOp;
  }

  /**
   * The handler NewHTTPHandler builds over NewEndpointSet never panics: every
   * routed request decodes to its endpoint's own record or fails in the
   * JSON decoder, and then gets a response envelope of its operation.
   */
  lemma HandlerNeverPanics(svc: Service, request: HttpRequest)
    ensures var d := Dispatch(RouteTable(NewEndpointSet(svc)), request.verb, request.path);
            d.Handled? ==> && Serve(d.server, request, d.vars).Returned?
                           && d.server.endpoint.svc == svc
                           && d.server.endpoint.op == d.server.decoder
  {
    var routes := RouteTable(NewEndpointSet(svc));
    RouteTableConsistent(svc);
    DispatchSpec(routes, request.verb, Split(request.path), false);
    assert forall i :: 0 <= i < |routes| ==> routes[i].server.endpoint.svc == svc;
  }

  /**
   * GET /api/v1/watermark/documents/{id}/status reaches the status endpoint
   * with the ticket from the path, and answers with the service's status
   * for that ticket and its failure's message.
   */
  lemma StatusOverHttp(svc: Service, request: HttpRequest, id: string)
    requires request.verb == "GET" && id != "" && '/' !in id
    requires request.path == Join(["", "api", "v1", "watermark", "documents", id, "status"])
    ensures var d := Dispatch(RouteTable(NewEndpointSet(svc)), request.verb, request.path);
            && d == Handled(HttpServer(Endpoint(StatusOp, svc), StatusOp), map["id" := id])
            && var r := Serve(d.server, request, d.vars);
               && r.Returned? && r.err == None && r.value.Resp? && r.value.response.StatusResponse?
               && r.value.response.status == svc.status(id).value
               && Reports(r.value.response.err, svc.status(id).failure)
  {
    var eps := NewEndpointSet(svc);
    var segs := ["", "api", "v1", "watermark", "documents", id, "status"];
    SplitJoin(segs);
    assert StatusShape(segs) by {
      assert segs[..5] == ["", "api", "v1", "watermark", "documents"];
    }
    ShapesExclusive(segs);
    RouteTableDispatch(eps, request.verb, request.path);
    assert eps.status == Slot(eps, StatusOp);
  }

  /**
   * A GET of /api/v1/watermark/documents with no body searches with no
   * filters; with a body, it searches with the filters the body decodes to,
   * or fails with the decoder's error.
   */
  lemma FindOverHttp(svc: Service, request: HttpRequest)
    requires request.verb == "GET"
    requires request.path == Join(["", "api", "v1", "watermark", "documents"])
    ensures var d := Dispatch(RouteTable(NewEndpointSet(svc)), request.verb, request.path);
            && d == Handled(HttpServer(Endpoint(FindOp, svc), FindOp), map[])
            && var r := Serve(d.server, request, d.vars);
               && r.Returned?
               && (request.contentLength == 0 ==> r.value.Resp? && r.value.response.documents == svc.find([]).value)
               && (request.contentLength != 0 && request.body.asFind.Success? ==>
                     r.value.Resp? && r.value.response.documents == svc.find(request.body.asFind.value).value)
               && (request.contentLength != 0 && request.body.asFind.Failure? ==>
                     r == Returned(Nil, Some(Other(request.body.asFind.error))))
  {
    var eps := NewEndpointSet(svc);
    var segs := ["", "api", "v1", "watermark", "documents"];
    SplitJoin(segs);
    ShapesExclusive(segs);
    RouteTableDispatch(eps, request.verb, request.path);
    assert eps.find == Slot(eps, FindOp);
  }
}
