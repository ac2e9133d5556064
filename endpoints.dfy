/**
 * The endpoint layer (pkg/watermark/endpoint/endpoints.go). Each endpoint
 * asserts that its request is its own record, calls the service once with
 * the record's fields, and wraps the service's `(value, error)` into a
 * response envelope: the value is always copied, a failure becomes the
 * envelope's `err` text, and the endpoint itself never returns an error.
 */
module Endpoints {
  import opened Wrappers
  import opened Errors
  import opened Watermark
  import opened Requests
  import opened Responses
  import opened Values

  /** An envelope's `err` text reports a service failure: its message, or "" when there was none. */
  predicate Reports(err: string, failure: Option<Error>)
  {
    match failure
    case None => err == ""
    case Some(e) => err == e.Message()
  }

  function FindEndpoint(svc: Service, request: Value): (r: Returned)
    ensures r.Panicked? <==> !(request.Req? && request.request.FindRequest?)
    ensures r.Returned? ==> r.err == None && r.value.Resp? && r.value.response.FindResponse?
    ensures r.Returned? ==>
              var out := svc.find(request.request.filters);
              r.value.response.documents == out.value && Reports(r.value.response.err, out.failure)
  {
    match request
    case Req(FindRequest(filters)) =>
      var out := svc.find(filters);
      if out.failure.Some? then Returned(Resp(FindResponse(out.value, out.failure.value.Message())), None)
      else Returned(Resp(FindResponse(out.value, "")), None)
    case _ => Panicked
  }

  function StatusEndpoint(svc: Service, request: Value): (r: Returned)
    ensures r.Panicked? <==> !(request.Req? && request.request.StatusRequest?)
    ensures r.Returned? ==> r.err == None && r.value.Resp? && r.value.response.StatusResponse?
    ensures r.Returned? ==>
              var out := svc.status(request.request.ticketID);
              r.value.response.status == out.value && Reports(r.value.response.err, out.failure)
  {
    match request
    case Req(StatusRequest(ticketID)) =>
      var out := svc.status(ticketID);
      if out.failure.Some? then Returned(Resp(StatusResponse(out.value, out.failure.value.Message())), None)
      else Returned(Resp(StatusResponse(out.value, "")), None)
    case _ => Panicked
  }

  function CreateDocumentEndpoint(svc: Service, request: Value): (r: Returned)
    ensures r.Panicked? <==> !(request.Req? && request.request.CreateDocumentRequest?)
    ensures r.Returned? ==> r.err == None && r.value.Resp? && r.value.response.CreateDocumentResponse?
    ensures r.Returned? ==>
              var out := svc.createDocument(request.request.document);
              r.value.response.ticketID == out.value && Reports(r.value.response.err, out.failure)
  {
    match request
    case Req(CreateDocumentRequest(document)) =>
      var out := svc.createDocument(document);
      if out.failure.Some? then Returned(Resp(CreateDocumentResponse(out.value, out.failure.value.Message())), None)
      else Returned(Resp(CreateDocumentResponse(out.value, "")), None)
    case _ => Panicked
  }

  function WatermarkEndpoint(svc: Service, request: Value): (r: Returned)
    ensures r.Panicked? <==> !(request.Req? && request.request.WatermarkRequest?)
    ensures r.Returned? ==> r.err == None && r.value.Resp? && r.value.response.WatermarkResponse?
    ensures r.Returned? ==>
              var out := svc.watermark(request.request.ticketID, request.request.mark);
              r.value.response.code == out.value && Reports(r.value.response.err, out.failure)
  {
    match request
    case Req(WatermarkRequest(ticketID, mark)) =>
      var out := svc.watermark(ticketID, mark);
      if out.failure.Some? then Returned(Resp(WatermarkResponse(out.value, out.failure.value.Message())), None)
      else Returned(Resp(WatermarkResponse(out.value, "")), None)
    case _ => Panicked
  }

  function ServiceStatusEndpoint(svc: Service, request: Value): (r: Returned)
    ensures r.Panicked? <==> !(request.Req? && request.request.ServiceStatusRequest?)
    ensures r.Returned? ==> r.err == None && r.value.Resp? && r.value.response.ServiceStatusResponse?
    ensures r.Returned? ==>
              var out := svc.serviceStatus();
              r.value.response.code == out.value && Reports(r.value.response.err, out.failure)
  {
    match request
    case Req(ServiceStatusRequest) =>
      var out := svc.serviceStatus();
      if out.failure.Some? then Returned(Resp(ServiceStatusResponse(out.value, out.failure.value.Message())), None)
      else Returned(Resp(ServiceStatusResponse(out.value, "")), None)
    case _ => Panicked
  }

  /** The closure a Make*Endpoint function returns: the operation it serves and the service it captured. */
  datatype Endpoint = Endpoint(op: Operation, svc: Service)

  /** The request is the record the operation's endpoint asserts it to be. */
  predicate Accepts(op: Operation, request: Value)
  {
    request.Req? && request.request.Op() == op
  }

  /** The failure, if any, the service reports for a request. */
  function Failure(svc: Service, request: Request): Option<Error>
  {
    match request
    case FindRequest(filters) => svc.find(filters).failure
    case StatusRequest(ticketID) => svc.status(ticketID).failure
    case WatermarkRequest(ticketID, mark) => svc.watermark(ticketID, mark).failure
    case CreateDocumentRequest(document) => svc.createDocument(document).failure
    case ServiceStatusRequest => svc.serviceStatus().failure
  }

  /** Calling an endpoint: the body of the closure for its operation. */
  function Invoke(e: Endpoint, request: Value): (r: Returned)
    ensures r.Panicked? <==> !Accepts(e.op, request)
    ensures r.Returned? ==> r.err == None && r.value.Resp? && r.value.response.Op() == e.op
    ensures r.Returned? ==> Reports(r.value.response.err, Failure(e.svc, request.request))
  {
    match e.op
    case FindOp => FindEndpoint(e.svc, request)
    case StatusOp => StatusEndpoint(e.svc, request)
    case WatermarkOp => WatermarkEndpoint(e.svc, request)
    case CreateDocumentOp => CreateDocumentEndpoint(e.svc, request)
    case ServiceStatusOp => ServiceStatusEndpoint(e.svc, request)
  }

  /** The endpoint set: one slot per operation. */
  datatype EndpointSet = EndpointSet(
    find: Endpoint,
    createDocument: Endpoint,
    status: Endpoint,
    serviceStatus: Endpoint,
    watermark: Endpoint)

  /** The slot of the set that serves an operation. */
  function Slot(eps: EndpointSet, op: Operation): Endpoint
  {
    match op
    case FindOp => eps.find
    case StatusOp => eps.status
    case WatermarkOp => eps.watermark
    case CreateDocumentOp => eps.createDocument
    case ServiceStatusOp => eps.serviceStatus
  }

  function NewEndpointSet(svc: Service): (eps: EndpointSet)
    ensures forall op :: Slot(eps, op) == Endpoint(op, svc)
  {
    EndpointSet(
      find := Endpoint(FindOp, svc),
      createDocument := Endpoint(CreateDocumentOp, svc),
      status := Endpoint(StatusOp, svc),
      serviceStatus := Endpoint(ServiceStatusOp, svc),
      watermark := Endpoint(WatermarkOp, svc))
  }

  /**
   * An envelope's `err` is empty exactly when the service succeeded or failed
   * with an empty message: a reader of the envelope cannot tell those two apart.
   */
  lemma ErrEmptyIff(e: Endpoint, request: Value)
    requires Accepts(e.op, request)
    ensures Invoke(e, request).Returned?
    ensures var failure := Failure(e.svc, request.request);
            Invoke(e, request).value.response.err == "" <==> failure.None? || failure.value.Message() == ""
  {
  }
}
