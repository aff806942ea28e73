/**
 * What an HTTP call made through axios can come back with, taken as an input
 * by the client model: the response data, or one of axios's three kinds of
 * error.
 */
module Http {
  import opened Wrappers

  /** A response body as the client sees it: parsed JSON (with or without a `message`) or text. */
  datatype Body =
    | JsonBody(message: Option<string>)
    | TextBody(text: string)

  /** The error a rejected axios call carries. */
  datatype AxiosError =
    | HttpError(status: int, body: Body)   // `error.response` is set
    | NoResponse                           // only `error.request` is set
    | Unsent(message: string)              // neither: an `Error` thrown before or around the request

  /** The outcome of one call: `response.data`, or the rejection. */
  type Reply<T> = Result<T, AxiosError>

  predicate IsUnauthorized(e: AxiosError) {
    e.HttpError? && e.status == 401
  }

  /** A status a server can actually send. */
  predicate RealStatus(e: AxiosError) {
    e.HttpError? ==> 100 <= e.status <= 599
  }
}
