/**
 * The endpoint-level response envelopes (pkg/watermark/endpoint/response.go):
 * each carries the operation's primary result and an `err` string, and the
 * JSON field names of its struct tags.
 */
module Responses {
  import opened Internal
  import opened Requests

  datatype Response =
    | FindResponse(documents: seq<Document>, err: string)
    | StatusResponse(status: Status, err: string)
    | WatermarkResponse(code: Int64, err: string)
    | CreateDocumentResponse(ticketID: string, err: string)
    | ServiceStatusResponse(code: Int64, err: string)
  {
    /** The operation this envelope answers. */
    function Op(): Operation
    {
      match this
      case FindResponse(_, _) => FindOp
      case StatusResponse(_, _) => StatusOp
      case WatermarkResponse(_, _) => WatermarkOp
      case CreateDocumentResponse(_, _) => CreateDocumentOp
      case ServiceStatusResponse(_, _) => ServiceStatusOp
    }
  }

  /** The JSON name of the envelope's primary field. */
  function PrimaryKey(r: Response): string
  {
    match r
    case FindResponse(_, _) => "documents"
    case StatusResponse(_, _) => "status"
    case WatermarkResponse(_, _) => "code"
    case CreateDocumentResponse(_, _) => "ticket_id"
    case ServiceStatusResponse(_, _) => "status"
  }

  /**
   * The top-level keys of the envelope's JSON object: the primary field always,
   * and `err` unless it is empty and tagged `omitempty`, which every envelope
   * but WatermarkResponse is.
   */
  function JsonKeys(r: Response): (keys: set<string>)
    ensures PrimaryKey(r) in keys
    ensures "err" in keys <==> r.err != "" || r.WatermarkResponse?
    ensures keys <= {PrimaryKey(r), "err"}
  {
    if r.err != "" || r.WatermarkResponse? then {PrimaryKey(r), "err"} else {PrimaryKey(r)}
  }
}
