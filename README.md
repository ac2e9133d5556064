# Watermark service transports, modelled in Dafny

A model of the request-handling core of the go-kit watermark microservice
(wzzfarewell/go-microservice-example). Five operations are offered: Find,
Status, Watermark, CreateDocument and ServiceStatus. Each is exposed over
HTTP (gorilla/mux routes with JSON bodies) and over gRPC (protobuf messages),
and both transports reach the same go-kit endpoints. The model covers:

- the endpoint layer: `NewEndpointSet` and the five `Make*Endpoint`
  closures, which assert their request record, call the service once, and
  wrap the `(value, error)` pair into a response envelope whose `err` text
  carries the failure (module `Endpoints`);
- the gRPC transport: the five request decoders and five response converters,
  the handlers `NewGRPCServer` pairs with the endpoints, go-kit's
  decode / endpoint / encode sequence, and the `grpcServer` methods' choice
  between `(nil, err)` and the asserted reply (module `GrpcTransport`);
- the HTTP transport: the five request decoders, `encodeResponse`,
  `encodeError` and its status table, the response writer they write into,
  the route table `NewHTTPHandler` registers, the router's choice of route,
  and the go-kit server run for the chosen route (modules `HttpTransport`
  and `Paths`);
- the command's choice of listen addresses: `envString` and the default
  ports (module `Command`).

The service itself is abstract (module `Watermark`): any five total
functions, each returning a value and an optional error. Go's `interface{}`
values passed between go-kit stages are `Values.Value`. A stage's result is
`Values.Returned`: a value and an optional error, or `Panicked` when a type
assertion fails or a nil pointer is dereferenced. Errors (module `Errors`)
are the two sentinels of `internal/util/error.go` plus `Other(text)` for any
other error. Sentinels are told apart by identity, as the `switch` in
`encodeError` does.

Integer widths: Go `int` is 64-bit; `internal.Status` is taken to be an `int`.
The protobuf `code` fields are taken to be `int64` and the protobuf status to
be an `int32` enum. The `internal` and protobuf packages are not part of this
model, so these widths are assumptions (module `Internal`, module `Pb`).

An HTTP decode failure does not go through `encodeError`'s status table:
`NewHTTPHandler` (pkg/watermark/transport/http.go:27-51) passes no
error-encoder option to `httptransport.NewServer`. So decode failures go to
go-kit's default error encoder, and `encodeError` is only reached through
`encodeResponse`. The model follows the code: `ServeHttp` reports such a
failure as `Rejected(err)`.

## Model

| member | source | states |
|---|---|---|
| Endpoints.FindEndpoint | pkg/watermark/endpoint/endpoints.go:37-46 | panics exactly when the request is not a FindRequest; otherwise never returns an error, and its envelope carries the service's documents and reports the service's failure as its message, or "" |
| Endpoints.StatusEndpoint | pkg/watermark/endpoint/endpoints.go:48-57 | panics exactly when the request is not a StatusRequest; otherwise the envelope carries the service's status for the ticket and reports its failure; no transport error |
| Endpoints.CreateDocumentEndpoint | pkg/watermark/endpoint/endpoints.go:59-68 | panics exactly when the request is not a CreateDocumentRequest; otherwise the envelope carries the ticket the service returns and reports its failure; no transport error |
| Endpoints.WatermarkEndpoint | pkg/watermark/endpoint/endpoints.go:70-79 | panics exactly when the request is not a WatermarkRequest; otherwise the envelope carries the service's code for (ticket, mark) and reports its failure; no transport error |
| Endpoints.ServiceStatusEndpoint | pkg/watermark/endpoint/endpoints.go:81-90 | panics exactly when the request is not a ServiceStatusRequest; otherwise the envelope carries the service's code and reports its failure; no transport error |
| Endpoints.Invoke | pkg/watermark/endpoint/endpoints.go:37-90 | any endpoint panics exactly on a request of another operation; otherwise it returns an envelope of its own operation, never an error, whose `err` reports the service failure |
| Endpoints.NewEndpointSet | pkg/watermark/endpoint/endpoints.go:27-35 | every slot of the set holds the endpoint of that slot's operation over the given service |
| Endpoints.ErrEmptyIff | pkg/watermark/endpoint/endpoints.go:41-44 | an accepted request never panics, and the envelope's `err` is empty exactly when the service succeeded or failed with an empty message |
| Responses.JsonKeys | pkg/watermark/endpoint/response.go:5-28 | an envelope's JSON always has its value key; it has `err` exactly when `err` is non-empty, except for WatermarkResponse, which always has it (no omitempty); it has no other key |
| GrpcTransport.FiltersFromWire | pkg/watermark/transport/grpc.go:73-76 | as many filters as on the wire, in order, each with the same Key and Value |
| GrpcTransport.DocumentFromWire | pkg/watermark/transport/grpc.go:110-116 | all five document fields are copied |
| GrpcTransport.DocumentsFromWire | pkg/watermark/transport/grpc.go:108-118 | as many documents as in the reply, in order, each field-for-field equal |
| GrpcTransport.DecodeGrpcGetRequest | pkg/watermark/transport/grpc.go:71-78 | panics exactly when not given a protobuf FindRequest; otherwise returns the FindRequest of the copied filters and no error |
| GrpcTransport.DecodeGrpcStatusRequest | pkg/watermark/transport/grpc.go:80-83 | panics exactly when not given a protobuf StatusRequest; otherwise copies TicketID verbatim, no error |
| GrpcTransport.DecodeGrpcWatermarkRequest | pkg/watermark/transport/grpc.go:85-88 | panics exactly when not given a protobuf WatermarkRequest; otherwise copies TicketID and Mark verbatim, no error |
| GrpcTransport.DecodeGrpcCreateDocumentRequest | pkg/watermark/transport/grpc.go:90-100 | panics exactly when not given a CreateDocumentRequest carrying a document; otherwise copies all five fields, no error |
| GrpcTransport.DecodeGrpcServiceStatusRequest | pkg/watermark/transport/grpc.go:102-104 | whatever it is given, returns the empty ServiceStatusRequest and no error |
| GrpcTransport.EncodeGrpcGetResponse | pkg/watermark/transport/grpc.go:106-120 | panics exactly when not given a protobuf FindReply; otherwise copies the documents one for one in order and Err verbatim, no error |
| GrpcTransport.EncodeGrpcStatusResponse | pkg/watermark/transport/grpc.go:122-125 | panics exactly when not given a StatusReply; otherwise keeps the status value while widening it, copies Err, no error |
| GrpcTransport.EncodeGrpcWatermarkResponse | pkg/watermark/transport/grpc.go:127-130 | panics exactly when not given a WatermarkReply; otherwise keeps Code while converting it to `int`, copies Err, no error |
| GrpcTransport.EncodeGrpcCreateDocumentResponse | pkg/watermark/transport/grpc.go:132-135 | panics exactly when not given a CreateDocumentReply; otherwise copies TicketID and Err, no error |
| GrpcTransport.EncodeGrpcServiceStatusResponse | pkg/watermark/transport/grpc.go:137-140 | panics exactly when not given a ServiceStatusReply; otherwise keeps Code while converting it to `int`, copies Err, no error |
| GrpcTransport.RequestFromWire | pkg/watermark/transport/grpc.go:71-104 | the request an operation's decoder builds is a record of that operation |
| GrpcTransport.DecodeGrpcRequest | pkg/watermark/transport/grpc.go:23-27 | the decoder paired with an operation panics exactly on values that are not its protobuf request, and never returns an error |
| GrpcTransport.ResponseFromWire | pkg/watermark/transport/grpc.go:106-140 | the envelope a converter builds is of its operation and carries the reply's Err verbatim |
| GrpcTransport.EncodeGrpcResponse | pkg/watermark/transport/grpc.go:23-27 | the converter paired with an operation panics exactly on values that are not its protobuf reply, and never returns an error |
| GrpcTransport.NewGrpcServer | pkg/watermark/transport/grpc.go:21-29 | each operation's handler pairs the endpoint set's slot for that operation with that operation's decoder and converter |
| GrpcTransport.ServeGrpc | pkg/watermark/transport/grpc.go:21-29 | as wired, serving any request through any handler panics (see Findings) |
| GrpcTransport.GrpcMethod | pkg/watermark/transport/grpc.go:31-69 | a server method returns (nil, err) when the handler errs; otherwise it returns the reply and no error when the reply is its operation's protobuf reply, and panics when it is not |
| GrpcTransport.Call | pkg/watermark/transport/grpc.go:31-69 | as written, every gRPC method call panics (see Findings) |
| GrpcTransport.Wrap32 | pkg/watermark/transport/grpc.go:122-125 | the 32-bit narrowing the corrected status encoder needs is the identity on values that fit |
| GrpcTransport.FiltersToWire | pkg/watermark/transport/grpc.go:74-76 | filters go on the wire one for one, in order, with the same key and value |
| GrpcTransport.DocumentsToWire | pkg/watermark/transport/grpc.go:109-118 | documents go on the wire one for one, in order, field by field |
| GrpcTransport.ReplyToWire | pkg/watermark/transport/grpc.go:106-140 | an envelope becomes the protobuf reply of its own operation |
| GrpcTransport.EncodeGrpcResponseCorrected | pkg/watermark/transport/grpc.go:23-27 | the corrected encoder panics exactly when not given an envelope of its operation; otherwise it returns that envelope's protobuf reply, no error |
| GrpcTransport.ServeGrpcCorrected | pkg/watermark/transport/grpc.go:21-29 | with the corrected encoder, serving panics exactly on a request the decoder rejects or a handler whose endpoint is of another operation; otherwise the reply is the endpoint's envelope for the decoded request, put on the wire |
| GrpcTransport.CallCorrected | pkg/watermark/transport/grpc.go:31-69 | with the corrected encoder, a server method panics only on a request its decoder rejects, and otherwise returns its own operation's reply built from the endpoint's envelope |
| GrpcTransport.FiltersRoundTrip | pkg/watermark/transport/grpc.go:71-78 | filters sent on the wire are decoded back unchanged |
| GrpcTransport.DocumentsRoundTrip | pkg/watermark/transport/grpc.go:106-120 | documents sent on the wire are converted back unchanged |
| GrpcTransport.ReplyRoundTrip | pkg/watermark/transport/grpc.go:106-140 | the as-written converters undo the corrected encoder on every envelope whose status fits the enum |
| GrpcTransport.StatusRoundTripIff | pkg/watermark/transport/grpc.go:122-125 | a status survives the trip through the protobuf reply exactly when it fits 32 bits |
| GrpcTransport.RequestRoundTrip | pkg/watermark/transport/grpc.go:71-104 | a protobuf request built from a request is accepted exactly unless it is a CreateDocument request without a document, and then it decodes back to the request |
| Paths.Split | pkg/watermark/transport/http.go:27-51 | a path has at least one segment and no segment contains '/' |
| Paths.SplitJoin | pkg/watermark/transport/http.go:27-51 | splitting undoes joining slash-free segments, which ties each registered path to its string |
| Paths.Segments | pkg/watermark/transport/http.go:32 | a template has one segment per path segment, `{name}` a variable and any other a literal |
| Paths.Match | pkg/watermark/transport/http.go:32 | a match means the path fits the template (same length, literals equal, variables non-empty), binds every variable name to the segment at its first position, and binds nothing else |
| Paths.MatchComplete | pkg/watermark/transport/http.go:32 | every path that fits a template matches it |
| Paths.MatchOneVariable | pkg/watermark/transport/http.go:32 | a match of a template with a single variable binds that variable and nothing else |
| Paths.MatchSingleVariable | pkg/watermark/transport/http.go:32 | a template with a single variable matches exactly the paths that fit it, binding that variable to its segment |
| HttpTransport.DecodeHttpFindRequest | pkg/watermark/transport/http.go:62-73 | a declared length of 0 gives the empty FindRequest and no error; otherwise the decoded filters, or no request and the decoder's error |
| HttpTransport.DecodeHttpStatusRequest | pkg/watermark/transport/http.go:75-80 | the ticket is the `id` path variable, "" when absent; never an error, so never the path-parameter sentinel |
| HttpTransport.DecodeHttpWatermarkRequest | pkg/watermark/transport/http.go:82-89 | the decoded ticket and mark, or no request and the decoder's error unchanged |
| HttpTransport.DecodeHttpCreateDocumentRequest | pkg/watermark/transport/http.go:91-98 | the decoded document, or no request and the decoder's error unchanged |
| HttpTransport.DecodeHttpServiceStatusRequest | pkg/watermark/transport/http.go:100-103 | always the empty request and no error |
| HttpTransport.DecodeHttpRequest | pkg/watermark/transport/http.go:62-103 | no HTTP decoder panics; a success is a record of the decoder's operation; a failure carries no request, is never a sentinel, and happens only in the Find (with a body), Watermark and CreateDocument decoders |
| HttpTransport.ResponseWriter.constructor | pkg/watermark/transport/http.go:105-126 | a fresh writer has no header, no status and no body |
| HttpTransport.ResponseWriter.SetHeader | pkg/watermark/transport/http.go:114 | sets one header, nothing else changes |
| HttpTransport.ResponseWriter.WriteHeader | pkg/watermark/transport/http.go:115-122 | the first status written is kept |
| HttpTransport.ResponseWriter.Write | pkg/watermark/transport/http.go:110 | a write sends status 200 if none was sent, appends to the body unless the connection fails, and returns the connection's error |
| HttpTransport.StatusFor | pkg/watermark/transport/http.go:115-122 | 404 exactly for the path-parameter sentinel, 400 exactly for the invalid-argument sentinel, 500 exactly for every other error |
| HttpTransport.ErrorBody | pkg/watermark/transport/http.go:123-125 | the error body has exactly one key, `error`, holding the error's message |
| HttpTransport.EncodeError | pkg/watermark/transport/http.go:113-126 | sets the JSON content type, sends the status of the table unless one was sent, and writes the error body |
| HttpTransport.EncodeResponse | pkg/watermark/transport/http.go:105-111 | an error value goes to encodeError and nil is returned; any other value is written as JSON with the header untouched, and the write's error is returned |
| HttpTransport.Serve | pkg/watermark/transport/http.go:27-51 | a server whose decoder and endpoint share an operation never panics; its errors are the JSON decoder's; its results are envelopes of its endpoint's operation |
| HttpTransport.Router.constructor | pkg/watermark/transport/http.go:25 | a new router has no routes |
| HttpTransport.Router.Handle | pkg/watermark/transport/http.go:27-51 | registering appends one route, a method and a path template, after those already registered |
| HttpTransport.NewHttpHandler | pkg/watermark/transport/http.go:24-54 | the router holds exactly the five routes, in registration order, each with its path's template |
| HttpTransport.HealthzParses | pkg/watermark/transport/http.go:27 | the healthz path's template is all literals |
| HttpTransport.StatusParses | pkg/watermark/transport/http.go:32 | the status path's template has the variable `id` in place of the ticket segment and literals elsewhere |
| HttpTransport.DocumentsParses | pkg/watermark/transport/http.go:37 | the documents path's template is all literals |
| HttpTransport.WatermarkParses | pkg/watermark/transport/http.go:47 | the watermark path's template is all literals |
| HttpTransport.DispatchSegments | pkg/watermark/transport/http.go:24-54 | a route the router answers with is registered under the request's method, its template matches the path and gives the bindings; once a route matching the path was passed over the answer is never 404 |
| HttpTransport.Dispatch | pkg/watermark/transport/http.go:24-54 | a request is handled by a route registered under its method whose template matches its path, with that match's bindings; 404 exactly when no template matches the path |
| HttpTransport.DispatchFirstMatch | pkg/watermark/transport/http.go:24-54 | the route chosen is the first that matches both method and path, and there is one exactly when some route does |
| HttpTransport.DispatchNoRoute | pkg/watermark/transport/http.go:24-54 | 404 exactly when no route matches the path |
| HttpTransport.DispatchSpec | pkg/watermark/transport/http.go:24-54 | the router picks the first route matching both method and path, with its bindings; it answers 404 exactly when no route matches the path, and 405 when some route matches the path but none matches the method too |
| HttpTransport.MatchStatus | pkg/watermark/transport/http.go:32 | the status route matches exactly the paths of its shape with a non-empty ticket segment, and binds `id` to that segment |
| HttpTransport.TableMatches | pkg/watermark/transport/http.go:27-51 | which of the five templates a request's path matches, and what each binds |
| HttpTransport.RouteTableDispatch | pkg/watermark/transport/http.go:24-54 | every method and path is dispatched as the API table says: GET healthz, GET status with the ticket bound, GET and POST documents to Find and CreateDocument, POST watermark; 405 for other methods on those paths, 404 elsewhere |
| HttpTransport.RouteTable | pkg/watermark/transport/http.go:27-51 | five routes, each under GET or POST, each serving with its operation's decoder the endpoint of the same operation's slot |
| HttpTransport.HealthzPathJoins | pkg/watermark/transport/http.go:27 | the healthz segments join to "/api/v1/watermark/healthz" |
| HttpTransport.StatusPathJoins | pkg/watermark/transport/http.go:32 | the status segments join to "/api/v1/watermark/documents/{id}/status" |
| HttpTransport.DocumentsPathJoins | pkg/watermark/transport/http.go:37 | the documents segments join to "/api/v1/watermark/documents" |
| HttpTransport.WatermarkPathJoins | pkg/watermark/transport/http.go:47 | the watermark segments join to "/api/v1/watermark/watermark" |
| HttpTransport.RoutesDistinct | pkg/watermark/transport/http.go:27-51 | the five (method, path) pairs are pairwise distinct |
| HttpTransport.ServeHttp | pkg/watermark/transport/http.go:24-54 | a request gets the router's 404 or 405, the decoder's or endpoint's error, a panic, or the JSON encoding of the endpoint's envelope with status 200 unless already sent |
| HttpTransport.RouteTableConsistent | pkg/watermark/transport/http.go:27-51 | over NewEndpointSet every route pairs its decoder with its own operation's endpoint |
| HttpTransport.HandlerNeverPanics | pkg/watermark/transport/http.go:27-51 | over NewEndpointSet no routed request panics, and each reaches the service given |
| HttpTransport.StatusOverHttp | pkg/watermark/transport/http.go:32-36 | GET of the status path with a ticket reaches the status endpoint with `id` bound to that ticket, and answers the service's status for it with its failure's message |
| HttpTransport.FindOverHttp | pkg/watermark/transport/http.go:37-41 | GET of the documents path reaches Find: with no body it searches with no filters, with a body it searches with the decoded filters or fails with the decoder's error |
| Command.Getenv | cmd/watermark.go:96 | the variable's value, or "" when unset |
| Command.EnvString | cmd/watermark.go:95-101 | the fallback when the variable is unset or empty; the value verbatim otherwise; never empty when the fallback is not |
| Command.HttpAddr | cmd/watermark.go:29 | the HTTP address is localhost with HTTP_PORT's value when it is set and non-empty, else 8081 |
| Command.GrpcAddr | cmd/watermark.go:30 | the gRPC address is localhost with GRPC_PORT's value when it is set and non-empty, else 8082 |
| Command.JoinHostPort | cmd/watermark.go:29-30 | the address is the host, a colon and the port |
| Command.JoinHostPortInjective | cmd/watermark.go:29-30 | two addresses on localhost are equal exactly when their ports are |
| Command.DefaultAddresses | cmd/watermark.go:21-30 | with HTTP_PORT and GRPC_PORT unset or empty the service listens on localhost:8081 and localhost:8082 |
| Command.AddressPorts | cmd/watermark.go:21-30 | each address's port is its variable's value when set and non-empty and its default otherwise; the two addresses coincide exactly when the ports do |

## Left out

- The `run.Group` supervisor, the listener tasks and the SIGINT/SIGTERM watcher (cmd/watermark.go:43-92): concurrency and OS signals in a library that is not part of this model.
- `net.Listen`, `http.Serve`, `grpc.NewServer`/`Serve`, the gRPC interceptor and `os.Exit` on a bind failure: I/O and foreign calls. `net.JoinHostPort` is modelled only for hosts without a colon, which covers "localhost".
- Loggers and the `init` logger setup; the unused `routerHandler` adapter; the commented-out `Set` client methods; the stubbed service implementation in pkg/watermark/watermark.go. The service is a parameter.
- Contexts are dropped: no operation here reads its context.
- JSON is abstract. A request body is the outcome of decoding it into each request shape, the decoder's error becomes `Other(message)`, and a written body is a `Json` value, not bytes.
- gorilla/mux internals: path cleaning and its redirect, host and query matching, and URL escaping are not modelled. Registered paths are given as their segment lists, and `Paths.SplitJoin` ties each list to its string. `HttpTransport.Router.Handle` takes the template already parsed from the path; the `*Parses` lemmas tie each registered path to its template.
- Responses.JsonKeys: a statement about the struct tags alone. A written body is the opaque `Json.Encoded(value)`, so no contract of `EncodeResponse` or `ServeHttp` is stated through it.
- The 405 answer for a path registered under another method (`HttpTransport.DispatchSpec`) is gorilla/mux behaviour from v1.7 on; older versions answer 404. The module's dependency versions are not part of this model, so this version is assumed.
- HttpTransport.ServeHttp: the router's own 404 and 405 replies and go-kit's default error encoder are reported as outcomes, not as writes to the response writer, because their bodies are library behaviour outside this model.
- Protobuf details: nil elements inside repeated fields, and the difference between nil and empty slices, are not represented.
- Errors other than the two sentinels are compared by message. Two distinct Go errors with the same text are one value here.
- The widths of `internal.Status` and of the protobuf fields are assumptions, as stated above.
- GrpcTransport.EncodeGrpcResponseCorrected: narrows a status to 32 bits by two's-complement truncation, as Go's conversion does. `GrpcTransport.ReplyRoundTrip` therefore holds only for statuses that fit, and `GrpcTransport.StatusRoundTripIff` states exactly when.

## Findings

| source | as written | input that shows it | evidently intended | confidence | as-written member | corrected member |
|---|---|---|---|---|---|---|
| pkg/watermark/transport/grpc.go:23-27, 106-140 | each `encodeGRPC*Response` asserts its argument to a protobuf reply and builds an endpoint envelope from it. go-kit's gRPC server hands the response encoder the endpoint's result, which is an envelope, not a protobuf reply. | any call, e.g. `Find` with an empty `FindRequest`: the endpoint returns a `FindResponse` value (not a `*watermark.FindReply`), and `grpcReply.(*watermark.FindReply)` at line 107 panics | the encoder should assert the endpoint's envelope and build the protobuf reply from it, so each server method returns its operation's reply | high; not executed | GrpcTransport.ServeGrpc, GrpcTransport.Call | GrpcTransport.EncodeGrpcResponseCorrected, GrpcTransport.ServeGrpcCorrected, GrpcTransport.CallCorrected, GrpcTransport.ReplyRoundTrip |
