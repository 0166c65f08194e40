/** Option and Result values shared by the whole model. */
module Outcomes {

  /** A value that may be absent: SQL NULL, Python None, a lookup that found nothing. */
  datatype Option<+T> = None | Some(value: T)

  /** What an operation produces: a value, or the HTTP status code of the error it raises. */
  datatype Result<+T> = Ok(value: T) | Err(code: int)

  const BadRequest := 400
  const Forbidden := 403
  const NotFound := 404
  /** FastAPI's answer to a request body whose validator raised ValueError. */
  const UnprocessableEntity := 422
  /** An exception nobody catches: AttributeError, TypeError, a database IntegrityError. */
  const InternalServerError := 500
  const BadGateway := 502
}
