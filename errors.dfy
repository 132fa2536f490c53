/**
 * The exceptions that the analysis core raises or lets escape, one
 * constructor per Python exception class.
 */
module Errors {

  datatype Error =
      /** fastapi.HTTPException: an HTTP status code and its detail text. */
    | HttpError(statusCode: int, detail: string)
      /** ValueError raised by an adapter constructor whose API key is missing. */
    | ValueError(message: string)
      /** AttributeError: reading an attribute the object does not have. */
    | AttributeError(name: string)
      /** TypeError: `SubjectOutcome(**raw)` on a value that is not a mapping. */
    | TypeError(message: string)
      /** pydantic.ValidationError: the named model rejected its input. */
    | ValidationError(model: string)
}
