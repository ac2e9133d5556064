/**
 * Error values (internal/util/error.go). The two sentinels are compared by
 * identity, as Go compares error values with `==`; every other error is an
 * `Other` carrying its message, and is never equal to a sentinel, whatever
 * that message says.
 */
module Errors {

  datatype Error = PathParamNotFound | InvalidArgument | Other(text: string)
  {
    /** What `err.Error()` returns. */
    function Message(): string
    {
      match this
      case PathParamNotFound => "unknown argument passed"
      case InvalidArgument => "invalid argument passed"
      case Other(text) => text
    }
  }
}
