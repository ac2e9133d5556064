/**
 * The value types of the service's `internal` package (documents, filters,
 * ticket statuses) and Go's fixed-width integers. The package's own source is
 * not part of this model; the field lists below are the ones the transports
 * and endpoints read and write.
 */
module Internal {

  /** Go's `int32`. */
  type Int32 = x: int | -0x8000_0000 <= x < 0x8000_0000

  /** Go's `int` and `int64` (a 64-bit platform). */
  type Int64 = x: int | -0x8000_0000_0000_0000 <= x < 0x8000_0000_0000_0000

  /** A ticket's processing status, an integer enumeration. */
  type Status = Int64

  /** One key/value condition of a document search. */
  datatype Filter = Filter(key: string, value: string)

  /** A document, with the five fields every transport copies. */
  datatype Document = Document(content: string, title: string, author: string, topic: string, watermark: string)
}
