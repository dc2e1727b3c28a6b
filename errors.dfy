/** The errors the core can return. Go's `error` is an interface; here it is one datatype. */
module Errors {

  /** The two tag events the pull parser's `Expect` is asked about. */
  datatype EventKind = StartTag | EndTag

  datatype Error =
    /** `Expect(event, name)` found a different current event or name. */
    | Unexpected(event: EventKind, name: string)
    /** `FindRoot` reached the end of the document without a start tag. */
    | NoRootElement
    /** `NextTag` reached the end of the document. */
    | NoNextTag
    /** `DecodeElement` was asked to read an element while not on a start tag. */
    | NotAtStartTag
    /** An element read as a whole (text, extension) has no end tag before the end of the document. */
    | UnterminatedElement
    /** The orchestrator's `errors.New(message)`. */
    | Failed(message: string)
    /** `HTTPError`: a response whose status is outside 200..399. */
    | HttpStatus(statusCode: int, status: string)

}
