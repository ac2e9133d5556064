/**
 * The business-logic interface (pkg/watermark/service.go). Its implementation
 * is abstract here: a service is any five total functions, each returning its
 * primary value together with an optional failure, as the Go methods return
 * `(value, error)`. The request context is not modelled.
 */
module Watermark {
  import opened Wrappers
  import opened Internal
  import opened Errors

  /** A `(value, error)` pair: the value is present even when the call failed. */
  datatype Outcome<+T> = Outcome(value: T, failure: Option<Error>)

  datatype Service = Service(
    find: seq<Filter> -> Outcome<seq<Document>>,
    status: string -> Outcome<Status>,
    watermark: (string, string) -> Outcome<Int64>,
    createDocument: Option<Document> -> Outcome<string>,
    serviceStatus: () -> Outcome<Int64>)
}
