/** The endpoint-level request records (pkg/watermark/endpoint/request.go). */
module Requests {
  import opened Wrappers
  import opened Internal

  /** The five operations of the service. */
  datatype Operation = FindOp | StatusOp | WatermarkOp | CreateDocumentOp | ServiceStatusOp

  datatype Request =
    | FindRequest(filters: seq<Filter>)
    | StatusRequest(ticketID: string)
    | WatermarkRequest(ticketID: string, mark: string)
    | CreateDocumentRequest(document: Option<Document>)
    | ServiceStatusRequest
  {
    /** The operation this request record belongs to. */
    function Op(): Operation
    {
      match this
      case FindRequest(_) => FindOp
      case StatusRequest(_) => StatusOp
      case WatermarkRequest(_, _) => WatermarkOp
      case CreateDocumentRequest(_) => CreateDocumentOp
      case ServiceStatusRequest => ServiceStatusOp
    }
  }
}
