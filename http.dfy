/** The HTTP errors the API routers raise (FastAPI's `HTTPException`). */
module Http {

  /** `HTTPException(status_code, detail)`. */
  datatype HttpError = HttpError(status: int, detail: string)

  /** 400 Bad Request, section 15.5.1 of RFC 9110. */
  const BadRequest: int := 400
  /** 404 Not Found, section 15.5.5 of RFC 9110. */
  const NotFound: int := 404
  /** 500 Internal Server Error, section 15.6.1 of RFC 9110. */
  const InternalServerError: int := 500
}
