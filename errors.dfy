/**
  The HTTP errors the three data handlers raise.

  Each handler raises a 404 when the provider returns no rows, but it does so
  inside a `try` whose `except Exception` clause catches everything, the 404
  included, and raises a fresh 500 whose detail carries the caught exception.
  The model keeps that nesting as a value instead of formatting it into text.
*/
module ApiErrors {

  datatype HttpError = HttpError(status: int, detail: Detail)

  datatype Detail =
    | NoData(symbol: string)                      // "No data found for symbol ..."
    | Caught(context: string, cause: HttpError)   // "<context>: <str(cause)>"

  const ChartContext := "Error fetching chart data"
  const IndicatorsContext := "Error calculating technical indicators"
  const RecommendationsContext := "Error generating trade recommendations"

  /** The exception raised when the provider's series is empty. */
  function NotFound(symbol: string): HttpError
  {
    HttpError(404, NoData(symbol))
  }

  /** What the handler's `except Exception` clause turns any exception into. */
  function Rewrap(context: string, cause: HttpError): HttpError
  {
    HttpError(500, Caught(context, cause))
  }

  /** The error an empty series produces, as the caller sees it. */
  function EmptySeriesError(context: string, symbol: string): (e: HttpError)
    ensures e.status == 500
    ensures e.detail.Caught? && e.detail.context == context
    ensures e.detail.cause.status == 404 && e.detail.cause.detail == NoData(symbol)
  {
    Rewrap(context, NotFound(symbol))
  }
}
