/** The error an HTTP handler raises: FastAPI's `HTTPException(status_code, detail)`. */
module Http {
  datatype HttpError = HttpError(status: nat, detail: string)

  const BadRequest: nat := 400
  const InternalError: nat := 500
  const Unavailable: nat := 503
}
