/** Error kinds, reduced to what the engine branches on (nestor/src/error.rs). */
module Errors {
  import opened Common
  import opened Origin

  datatype OriginError = Missing | PreconditionFailed | NotModified | ShortRead | Timeout | Io {
    predicate Retryable()
      ensures Retryable() <==> !Missing? && !PreconditionFailed? && !NotModified?
    {
      ShortRead? || Timeout? || Io?
    }
  }

  datatype NestorError =
    | NotFound | Stale | Cancelled
    | Unsatisfiable(start: nat, end: int, size: nat)
    | FromOrigin(cause: OriginError)

  function ToNestor(e: OriginError): NestorError {
    match e
    case Missing => NotFound
    case PreconditionFailed => Stale
    case _ => FromOrigin(e)
  }

  type BlockResult = Result<Block, NestorError>
}
