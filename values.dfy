/**
 * Go's `interface{}` as the go-kit plumbing passes it around, and what a
 * go-kit function of shape `func(ctx, interface{}) (interface{}, error)`
 * does: return a value and an error, or panic (a failed type assertion or a
 * nil-pointer dereference).
 */
module Values {
  import opened Wrappers
  import opened Errors
  import Requests
  import Responses
  import Pb

  datatype Value =
    | Nil
    | Req(request: Requests.Request)
    | Resp(response: Responses.Response)
    | Msg(message: Pb.Message)
    | Fault(error: Error)

  datatype Returned = Returned(value: Value, err: Option<Error>) | Panicked
}
