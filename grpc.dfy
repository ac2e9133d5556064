/**
 * The gRPC transport (pkg/watermark/transport/grpc.go): field-copying
 * converters between protobuf messages and endpoint records, the handlers
 * NewGRPCServer builds from them, and the per-operation server methods.
 *
 * Every converter takes the `interface{}` go-kit hands it and type-asserts it;
 * a failed assertion (or the nil document a CreateDocumentRequest may carry)
 * is the `Panicked` outcome. The five encodeGRPC*Response converters go from a
 * protobuf reply to an endpoint envelope, while go-kit hands a response
 * encoder the endpoint's envelope: `ServeGrpc` shows the consequence, and the
 * `...Corrected` members model the encoder the wiring calls for.
 */
module GrpcTransport {
  import opened Wrappers
  import opened Internal
  import opened Requests
  import opened Responses
  import opened Values
  import opened Endpoints
  import Pb

  /* ---------- element copies ---------- */

  /** Filters copied from the wire one for one, in order, with identical Key and Value. */
  function FiltersFromWire(fs: seq<Pb.Filter>): (r: seq<Filter>)
    ensures |r| == |fs|
    ensures forall i :: 0 <= i < |fs| ==> r[i].key == fs[i].key && r[i].value == fs[i].value
  {
    if fs == [] then [] else [Filter(fs[0].key, fs[0].value)] + FiltersFromWire(fs[1..])
  }

  /** The five document fields agree. */
  predicate SameDocument(d: Document, w: Pb.Document)
  {
    d.content == w.content && d.title == w.title && d.author == w.author
    && d.topic == w.topic && d.watermark == w.watermark
  }

  function DocumentFromWire(w: Pb.Document): (d: Document)
    ensures SameDocument(d, w)
  {
    Document(w.content, w.title, w.author, w.topic, w.watermark)
  }

  /** Documents copied from the wire one for one, in order, field by field. */
  function DocumentsFromWire(ws: seq<Pb.Document>): (r: seq<Document>)
    ensures |r| == |ws|
    ensures forall i :: 0 <= i < |ws| ==> SameDocument(r[i], ws[i])
  {
    if ws == [] then [] else [DocumentFromWire(ws[0])] + DocumentsFromWire(ws[1..])
  }

  /* ---------- request decoders (wire request -> endpoint request) ---------- */

  method DecodeGrpcGetRequest(grpcReq: Value) returns (r: Returned)
    ensures r.Panicked? <==> !(grpcReq.Msg? && grpcReq.message.FindRequest?)
    ensures r.Returned? ==> r == Returned(Req(FindRequest(FiltersFromWire(grpcReq.message.filters))), None)
  {
    if !(grpcReq.Msg? && grpcReq.message.FindRequest?) {
      return Panicked;
    }
    var wire := grpcReq.message.filters;
    var filters: seq<Filter> := [];
    for i := 0 to |wire|
      invariant |filters| == i
      invariant forall j :: 0 <= j < i ==> filters[j].key == wire[j].key && filters[j].value == wire[j].value
    {
      filters := filters + [Filter(wire[i].key, wire[i].value)];
    }
    assert filters == FiltersFromWire(wire) by {
      var spec := FiltersFromWire(wire);
      forall j | 0 <= j < |wire| ensures filters[j] == spec[j] {}
    }
    return Returned(Req(FindRequest(filters)), None);
  }

  function DecodeGrpcStatusRequest(grpcReq: Value): (r: Returned)
    ensures r.Panicked? <==> !(grpcReq.Msg? && grpcReq.message.StatusRequest?)
    ensures r.Returned? ==> r == Returned(Req(StatusRequest(grpcReq.message.ticketID)), None)
  {
    if grpcReq.Msg? && grpcReq.message.StatusRequest? then
      Returned(Req(StatusRequest(grpcReq.message.ticketID)), None)
    else Panicked
  }

  function DecodeGrpcWatermarkRequest(grpcReq: Value): (r: Returned)
    ensures r.Panicked? <==> !(grpcReq.Msg? && grpcReq.message.WatermarkRequest?)
    ensures r.Returned? ==> r == Returned(Req(WatermarkRequest(grpcReq.message.ticketID, grpcReq.message.mark)), None)
  {
    if grpcReq.Msg? && grpcReq.message.WatermarkRequest? then
      Returned(Req(WatermarkRequest(grpcReq.message.ticketID, grpcReq.message.mark)), None)
    else Panicked
  }

  /** Dereferences the wire document, so a request without one panics. */
  function DecodeGrpcCreateDocumentRequest(grpcReq: Value): (r: Returned)
    ensures r.Panicked? <==> !(grpcReq.Msg? && grpcReq.message.CreateDocumentRequest? && grpcReq.message.document.Some?)
    ensures r.Returned? ==> r.err == None && r.value.Req? && r.value.request.CreateDocumentRequest?
    ensures r.Returned? ==> r.value.request.document.Some?
                            && SameDocument(r.value.request.document.value, grpcReq.message.document.value)
  {
    if grpcReq.Msg? && grpcReq.message.CreateDocumentRequest? && grpcReq.message.document.Some? then
      var d := grpcReq.message.document.value;
      Returned(Req(CreateDocumentRequest(Some(Document(d.content, d.title, d.author, d.topic, d.watermark)))), None)
    else Panicked
  }

  /** Ignores its input: no type assertion, no failure. */
  function DecodeGrpcServiceStatusRequest(grpcReq: Value): (r: Returned)
    ensures r == Returned(Req(ServiceStatusRequest), None)
  {
    Returned(Req(ServiceStatusRequest), None)
  }

  /* ---------- response converters as written (wire reply -> endpoint envelope) ---------- */

  method EncodeGrpcGetResponse(grpcReply: Value) returns (r: Returned)
    ensures r.Panicked? <==> !(grpcReply.Msg? && grpcReply.message.FindReply?)
    ensures r.Returned? ==>
              r == Returned(Resp(FindResponse(DocumentsFromWire(grpcReply.message.documents), grpcReply.message.err)), None)
  {
    if !(grpcReply.Msg? && grpcReply.message.FindReply?) {
      return Panicked;
    }
    var wire := grpcReply.message.documents;
    var docs: seq<Document> := [];
    for i := 0 to |wire|
      invariant |docs| == i
      invariant forall j :: 0 <= j < i ==> SameDocument(docs[j], wire[j])
    {
      var doc := Document(wire[i].content, wire[i].title, wire[i].author, wire[i].topic, wire[i].watermark);
      docs := docs + [doc];
    }
    assert docs == DocumentsFromWire(wire) by {
      var spec := DocumentsFromWire(wire);
      forall j | 0 <= j < |wire| ensures docs[j] == spec[j] {}
    }
    return Returned(Resp(FindResponse(docs, grpcReply.message.err)), None);
  }

  /** Widens the protobuf enum to a Status: the numeric value is kept. */
  function EncodeGrpcStatusResponse(grpcReply: Value): (r: Returned)
    ensures r.Panicked? <==> !(grpcReply.Msg? && grpcReply.message.StatusReply?)
    ensures r.Returned? ==> r == Returned(Resp(StatusResponse(grpcReply.message.status, grpcReply.message.err)), None)
  {
    if grpcReply.Msg? && grpcReply.message.StatusReply? then
      Returned(Resp(StatusResponse(grpcReply.message.status as Status, grpcReply.message.err)), None)
    else Panicked
  }

  function EncodeGrpcWatermarkResponse(grpcReply: Value): (r: Returned)
    ensures r.Panicked? <==> !(grpcReply.Msg? && grpcReply.message.WatermarkReply?)
    ensures r.Returned? ==> r == Returned(Resp(WatermarkResponse(grpcReply.message.code, grpcReply.message.err)), None)
  {
    if grpcReply.Msg? && grpcReply.message.WatermarkReply? then
      Returned(Resp(WatermarkResponse(grpcReply.message.code as Int64, grpcReply.message.err)), None)
    else Panicked
  }

  function EncodeGrpcCreateDocumentResponse(grpcReply: Value): (r: Returned)
    ensures r.Panicked? <==> !(grpcReply.Msg? && grpcReply.message.CreateDocumentReply?)
    ensures r.Returned? ==> r == Returned(Resp(CreateDocumentResponse(grpcReply.message.ticketID, grpcReply.message.err)), None)
  {
    if grpcReply.Msg? && grpcReply.message.CreateDocumentReply? then
      Returned(Resp(CreateDocumentResponse(grpcReply.message.ticketID, grpcReply.message.err)), None)
    else Panicked
  }

  function EncodeGrpcServiceStatusResponse(grpcReply: Value): (r: Returned)
    ensures r.Panicked? <==> !(grpcReply.Msg? && grpcReply.message.ServiceStatusReply?)
    ensures r.Returned? ==> r == Returned(Resp(ServiceStatusResponse(grpcReply.message.code, grpcReply.message.err)), None)
  {
    if grpcReply.Msg? && grpcReply.message.ServiceStatusReply? then
      Returned(Resp(ServiceStatusResponse(grpcReply.message.code as Int64, grpcReply.message.err)), None)
    else Panicked
  }

  /* ---------- one decoder and one encoder per operation ---------- */

  /** The value an operation's decoder accepts without panicking. */
  predicate WireRequestFor(codec: Operation, grpcReq: Value)
  {
    match codec
    case FindOp => grpcReq.Msg? && grpcReq.message.FindRequest?
    case StatusOp => grpcReq.Msg? && grpcReq.message.StatusRequest?
    case WatermarkOp => grpcReq.Msg? && grpcReq.message.WatermarkRequest?
    case CreateDocumentOp =>
      grpcReq.Msg? && grpcReq.message.CreateDocumentRequest? && grpcReq.message.document.Some?
    case ServiceStatusOp => true
  }

  /** The endpoint request an operation's decoder builds from a value it accepts. */
  function RequestFromWire(codec: Operation, grpcReq: Value): (r: Request)
    requires WireRequestFor(codec, grpcReq)
    ensures r.Op() == codec
  {
    match codec
    case FindOp => FindRequest(FiltersFromWire(grpcReq.message.filters))
    case StatusOp => StatusRequest(grpcReq.message.ticketID)
    case WatermarkOp => WatermarkRequest(grpcReq.message.ticketID, grpcReq.message.mark)
    case CreateDocumentOp => CreateDocumentRequest(Some(DocumentFromWire(grpcReq.message.document.value)))
    case ServiceStatusOp => ServiceStatusRequest
  }

  /** The decoder NewGRPCServer pairs with an operation. */
  method DecodeGrpcRequest(codec: Operation, grpcReq: Value) returns (r: Returned)
    ensures r.Panicked? <==> !WireRequestFor(codec, grpcReq)
    ensures r.Returned? ==> r == Returned(Req(RequestFromWire(codec, grpcReq)), None)
  {
    match codec
    case FindOp => r := DecodeGrpcGetRequest(grpcReq);
    case StatusOp => r := DecodeGrpcStatusRequest(grpcReq);
    case WatermarkOp => r := DecodeGrpcWatermarkRequest(grpcReq);
    case CreateDocumentOp => r := DecodeGrpcCreateDocumentRequest(grpcReq);
    case ServiceStatusOp => r := DecodeGrpcServiceStatusRequest(grpcReq);
  }

  /** The value is the protobuf reply of the operation. */
  predicate WireReplyFor(codec: Operation, grpcReply: Value)
  {
    grpcReply.Msg? &&
    match codec
    case FindOp => grpcReply.message.FindReply?
    case StatusOp => grpcReply.message.StatusReply?
    case WatermarkOp => grpcReply.message.WatermarkReply?
    case CreateDocumentOp => grpcReply.message.CreateDocumentReply?
    case ServiceStatusOp => grpcReply.message.ServiceStatusReply?
  }

  /** The envelope an operation's as-written converter builds from a protobuf reply. */
  function ResponseFromWire(codec: Operation, grpcReply: Value): (r: Response)
    requires WireReplyFor(codec, grpcReply)
    ensures r.Op() == codec && r.err == grpcReply.message.err
  {
    var m := grpcReply.message;
    match codec
    case FindOp => FindResponse(DocumentsFromWire(m.documents), m.err)
    case StatusOp => StatusResponse(m.status, m.err)
    case WatermarkOp => WatermarkResponse(m.code, m.err)
    case CreateDocumentOp => CreateDocumentResponse(m.ticketID, m.err)
    case ServiceStatusOp => ServiceStatusResponse(m.code, m.err)
  }

  /** The response converter NewGRPCServer pairs with an operation, as written. */
  method EncodeGrpcResponse(codec: Operation, grpcReply: Value) returns (r: Returned)
    ensures r.Panicked? <==> !WireReplyFor(codec, grpcReply)
    ensures r.Returned? ==> r == Returned(Resp(ResponseFromWire(codec, grpcReply)), None)
  {
    match codec
    case FindOp => r := EncodeGrpcGetResponse(grpcReply);
    case StatusOp => r := EncodeGrpcStatusResponse(grpcReply);
    case WatermarkOp => r := EncodeGrpcWatermarkResponse(grpcReply);
    case CreateDocumentOp => r := EncodeGrpcCreateDocumentResponse(grpcReply);
    case ServiceStatusOp => r := EncodeGrpcServiceStatusResponse(grpcReply);
  }

  /* ---------- the server NewGRPCServer builds ---------- */

  /** A go-kit gRPC handler: an endpoint with the decoder and response converter of one operation. */
  datatype Handler = Handler(endpoint: Endpoint, codec: Operation)

  datatype GrpcServer = GrpcServer(
    find: Handler,
    status: Handler,
    serviceStatus: Handler,
    createDocument: Handler,
    watermark: Handler)

  /** The handler behind an operation's server method. */
  function HandlerFor(s: GrpcServer, op: Operation): Handler
  {
    match op
    case FindOp => s.find
    case StatusOp => s.status
    case WatermarkOp => s.watermark
    case CreateDocumentOp => s.createDocument
    case ServiceStatusOp => s.serviceStatus
  }

  /** Each operation's handler pairs the endpoint set's slot for it with its own converters. */
  function NewGrpcServer(eps: EndpointSet): (s: GrpcServer)
    ensures forall op :: HandlerFor(s, op) == Handler(Slot(eps, op), op)
  {
    GrpcServer(
      find := Handler(eps.find, FindOp),
      status := Handler(eps.status, StatusOp),
      serviceStatus := Handler(eps.serviceStatus, ServiceStatusOp),
      createDocument := Handler(eps.createDocument, CreateDocumentOp),
      watermark := Handler(eps.watermark, WatermarkOp))
  }

  /**
   * go-kit's ServeGRPC as wired: decode, call the endpoint, then hand the
   * endpoint's envelope to the response converter. That converter asserts a
   * protobuf reply and is given an envelope, so every call panics.
   */
  method ServeGrpc(h: Handler, grpcReq: Value) returns (r: Returned)
    ensures r == Panicked
  {
    var decoded := DecodeGrpcRequest(h.codec, grpcReq);
    match decoded
    case Panicked => return Panicked;
    case Returned(request, decodeErr) =>
      if decodeErr.Some? {
        return Returned(Nil, decodeErr);
      }
      var out := Invoke(h.endpoint, request);
      match out
      case Panicked => return Panicked;
      case Returned(response, callErr) =>
        if callErr.Some? {
          return Returned(Nil, callErr);
        }
        var encoded := EncodeGrpcResponse(h.codec, response);
        match encoded
        case Panicked => return Panicked;
        case Returned(reply, encodeErr) =>
          return if encodeErr.Some? then Returned(Nil, encodeErr) else Returned(reply, None);
  }

  /**
   * A grpcServer method after ServeGRPC: `(nil, err)` when the handler
   * failed, otherwise the reply asserted to the operation's protobuf reply.
   */
  function GrpcMethod(op: Operation, served: Returned): (r: Returned)
    ensures served.Panicked? ==> r.Panicked?
    ensures served.Returned? && served.err.Some? ==> r == Returned(Nil, served.err)
    ensures served.Returned? && served.err.None? ==>
              (r.Panicked? <==> !WireReplyFor(op, served.value))
              && (r.Returned? ==> r == Returned(served.value, None))
  {
    if served.Panicked? then Panicked
    else if served.err.Some? then Returned(Nil, served.err)
    else if WireReplyFor(op, served.value) then Returned(served.value, None)
    else Panicked
  }

  /** A grpcServer method called with a protobuf request, as written: it always panics. */
  method Call(s: GrpcServer, op: Operation, request: Pb.Message) returns (r: Returned)
    ensures r == Panicked
  {
    var served := ServeGrpc(HandlerFor(s, op), Msg(request));
    r := GrpcMethod(op, served);
  }

  /* ---------- the response encoder the wiring calls for ---------- */

  /** Filters put on the wire one for one, in order, with identical key and value. */
  function FiltersToWire(fs: seq<Filter>): (r: seq<Pb.Filter>)
    ensures |r| == |fs|
    ensures forall i :: 0 <= i < |fs| ==> r[i].key == fs[i].key && r[i].value == fs[i].value
  {
    if fs == [] then [] else [Pb.Filter(fs[0].key, fs[0].value)] + FiltersToWire(fs[1..])
  }

  function DocumentToWire(d: Document): (w: Pb.Document)
    ensures SameDocument(d, w)
  {
    Pb.Document(d.content, d.title, d.author, d.topic, d.watermark)
  }

  /** Documents put on the wire one for one, in order, field by field. */
  function DocumentsToWire(ds: seq<Document>): (r: seq<Pb.Document>)
    ensures |r| == |ds|
    ensures forall i :: 0 <= i < |ds| ==> SameDocument(ds[i], r[i])
  {
    if ds == [] then [] else [DocumentToWire(ds[0])] + DocumentsToWire(ds[1..])
  }

  /** Go's conversion of an integer to `int32`: two's-complement truncation. */
  function Wrap32(x: int): (r: Int32)
    ensures -0x8000_0000 <= x < 0x8000_0000 ==> r == x
  {
    var m := x % 0x1_0000_0000;
    if m < 0x8000_0000 then m else m - 0x1_0000_0000
  }

  /** The protobuf reply carrying an endpoint envelope. */
  function ReplyToWire(response: Response): (m: Pb.Message)
    ensures WireReplyFor(response.Op(), Msg(m))
  {
    match response
    case FindResponse(docs, err) => Pb.FindReply(DocumentsToWire(docs), err)
    case StatusResponse(status, err) => Pb.StatusReply(Wrap32(status), err)
    case WatermarkResponse(code, err) => Pb.WatermarkReply(code, err)
    case CreateDocumentResponse(ticketID, err) => Pb.CreateDocumentReply(ticketID, err)
    case ServiceStatusResponse(code, err) => Pb.ServiceStatusReply(code, err)
  }

  /** The status of the envelope, if any, fits the 32-bit protobuf enum. */
  predicate FitsWire(response: Response)
  {
    response.StatusResponse? ==> -0x8000_0000 <= response.status < 0x8000_0000
  }

  /**
   * The corrected response encoder: asserts the endpoint's own envelope and
   * builds the protobuf reply from it.
   */
  function EncodeGrpcResponseCorrected(codec: Operation, response: Value): (r: Returned)
    ensures r.Panicked? <==> !(response.Resp? && response.response.Op() == codec)
    ensures r.Returned? ==> r == Returned(Msg(ReplyToWire(response.response)), None) && WireReplyFor(codec, r.value)
  {
    if response.Resp? && response.response.Op() == codec then Returned(Msg(ReplyToWire(response.response)), None)
    else Panicked
  }

  /** go-kit's ServeGRPC with the corrected encoder: every well-formed request gets its reply. */
  method ServeGrpcCorrected(h: Handler, grpcReq: Value) returns (r: Returned)
    ensures r.Panicked? <==> !WireRequestFor(h.codec, grpcReq) || h.endpoint.op != h.codec
    ensures r.Returned? ==>
              r.err == None
              && r.value == Msg(ReplyToWire(Invoke(h.endpoint, Req(RequestFromWire(h.codec, grpcReq))).value.response))
  {
    var decoded := DecodeGrpcRequest(h.codec, grpcReq);
    match decoded
    case Panicked => return Panicked;
    case Returned(request, decodeErr) =>
      if decodeErr.Some? {
        return Returned(Nil, decodeErr);
      }
      var out := Invoke(h.endpoint, request);
      match out
      case Panicked => return Panicked;
      case Returned(response, callErr) =>
        if callErr.Some? {
          return Returned(Nil, callErr);
        }
        var encoded := EncodeGrpcResponseCorrected(h.codec, response);
        match encoded
        case Panicked => return Panicked;
        case Returned(reply, encodeErr) =>
          return if encodeErr.Some? then Returned(Nil, encodeErr) else Returned(reply, None);
  }

  /** A grpcServer method with the corrected encoder: the reply of its own operation, never a panic on a well-formed request. */
  method CallCorrected(s: GrpcServer, op: Operation, request: Pb.Message) returns (r: Returned)
    requires HandlerFor(s, op).codec == op && HandlerFor(s, op).endpoint.op == op
    ensures r.Panicked? <==> !WireRequestFor(op, Msg(request))
    ensures r.Returned? ==>
              r.err == None && WireReplyFor(op, r.value)
              && r.value == Msg(ReplyToWire(Invoke(HandlerFor(s, op).endpoint, Req(RequestFromWire(op, Msg(request)))).value.response))
  {
    var served := ServeGrpcCorrected(HandlerFor(s, op), Msg(request));
    r := GrpcMethod(op, served);
  }

  /* ---------- lemmas ---------- */

  lemma {:induction false} FiltersRoundTrip(fs: seq<Filter>)
    ensures FiltersFromWire(FiltersToWire(fs)) == fs
  {
    if fs != [] {
      FiltersRoundTrip(fs[1..]);
      assert FiltersToWire(fs)[1..] == FiltersToWire(fs[1..]);
    }
  }

  lemma {:induction false} DocumentsRoundTrip(ds: seq<Document>)
    ensures DocumentsFromWire(DocumentsToWire(ds)) == ds
  {
    if ds != [] {
      DocumentsRoundTrip(ds[1..]);
      assert DocumentsToWire(ds)[1..] == DocumentsToWire(ds[1..]);
    }
  }

  /**
   * The as-written converters undo the corrected encoder: an envelope sent as
   * its protobuf reply comes back unchanged, when its status fits the enum.
   */
  lemma ReplyRoundTrip(response: Response)
    requires FitsWire(response)
    ensures ResponseFromWire(response.Op(), Msg(ReplyToWire(response))) == response
  {
    if response.FindResponse? {
      DocumentsRoundTrip(response.documents);
    }
  }

  /** A status outside the 32-bit enum does not survive the trip. */
  lemma StatusRoundTripIff(status: Status, err: string)
    ensures ResponseFromWire(StatusOp, Msg(ReplyToWire(StatusResponse(status, err)))) == StatusResponse(status, err)
            <==> -0x8000_0000 <= status < 0x8000_0000
  {
  }

  /**
   * A wire request built from an endpoint request decodes back to it, except
   * a CreateDocument request without a document, whose decoding panics.
   */
  lemma RequestRoundTrip(request: Request)
    ensures WireRequestFor(request.Op(), Msg(RequestToWire(request)))
            <==> !(request.CreateDocumentRequest? && request.document.None?)
    ensures WireRequestFor(request.Op(), Msg(RequestToWire(request))) ==>
              RequestFromWire(request.Op(), Msg(RequestToWire(request))) == request
  {
    if request.FindRequest? {
      FiltersRoundTrip(request.filters);
    }
  }

  /** The protobuf request a client would send for an endpoint request. */
  function RequestToWire(request: Request): Pb.Message
  {
    match request
    case FindRequest(filters) => Pb.FindRequest(FiltersToWire(filters))
    case StatusRequest(ticketID) => Pb.StatusRequest(ticketID)
    case WatermarkRequest(ticketID, mark) => Pb.WatermarkRequest(ticketID, mark)
    case CreateDocumentRequest(document) =>
      Pb.CreateDocumentRequest(if document.Some? then Some(DocumentToWire(document.value)) else None)
    case ServiceStatusRequest => Pb.ServiceStatusRequest
  }
}
