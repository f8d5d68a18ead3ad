/** How a request handler fails, as the client sees it. */
module HttpErrors {

  /**
   * An `HTTPException(status_code, detail)` raised by a handler or one of its
   * dependencies, or any other exception, which the framework answers with 500.
   */
  datatype ApiError =
    | HttpException(status: int, detail: string)
    | InternalServerError
  {
    function Status(): int
    {
      match this
      case HttpException(status, _) => status
      case InternalServerError => 500
    }
  }
}
