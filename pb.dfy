/**
 * The protobuf messages of the gRPC surface (package api/v1/pb/watermark),
 * as the transport reads and writes them. The generated package is not part
 * of this model: the shapes follow the fields grpc.go touches, numeric codes
 * are taken as 64-bit and the ticket status as a 32-bit protobuf enum.
 * A message held in a Go interface is a non-nil pointer; the document of a
 * CreateDocumentRequest is a pointer that may be nil.
 */
module Pb {
  import opened Wrappers
  import opened Internal

  datatype Filter = Filter(key: string, value: string)

  datatype Document = Document(content: string, title: string, author: string, topic: string, watermark: string)

  datatype Message =
    | FindRequest(filters: seq<Filter>)
    | StatusRequest(ticketID: string)
    | WatermarkRequest(ticketID: string, mark: string)
    | CreateDocumentRequest(document: Option<Document>)
    | ServiceStatusRequest
    | FindReply(documents: seq<Document>, err: string)
    | StatusReply(status: Int32, err: string)
    | WatermarkReply(code: Int64, err: string)
    | CreateDocumentReply(ticketID: string, err: string)
    | ServiceStatusReply(code: Int64, err: string)
}
