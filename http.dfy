/** What the two route handlers share: the JSON response they build, the
    outcome of the awaited provider call, the credential check and the
    `catch` clause. */
module Http {
  import opened JsValues

  /** The JSON body of a response: an error object, or the provider's result. */
  datatype Body<+T> = ErrorBody(error: string, details: Option<string>) | ResultBody(result: T)

  /** `NextResponse.json(body, { status })`; without an explicit status it is 200. */
  datatype Response<+T> = Response(status: int, body: Body<T>)

  /** How the awaited provider call settles: it resolves with a value or it throws. */
  datatype Outcome<+T> = Returned(value: T) | Threw(thrown: Thrown)

  /** One request handled: the response sent, and the input the provider was
      called with, if it was called at all. */
  datatype Exchange<+I, +T> = Exchange(response: Response<T>, call: Option<I>)

  const CONFIG_ERROR := "API configuration error"

  /** `process.env.GEMINI_API_KEY` is truthy: set and not the empty string. */
  predicate KeyConfigured(apiKey: Option<string>)
  {
    apiKey.Some? && apiKey.value != ""
  }

  /** The body parsed and destructured without throwing. */
  predicate Readable(request: Result<Json, Thrown>)
  {
    request.Ok? && !request.value.JNull?
  }

  /** The response for an unset credential. */
  function ConfigurationError<T>(): Response<T>
  {
    Response(500, ErrorBody(CONFIG_ERROR, None))
  }

  /** The `catch` clause: status 500, the handler's fixed message, and the
      thrown value's details. */
  function Caught<T>(message: string, t: Thrown): Response<T>
  {
    Response(500, ErrorBody(message, Some(Details(t))))
  }

  /** `NextResponse.json(result)`: status 200 with the result as the body. */
  function Success<T>(result: T): Response<T>
  {
    Response(200, ResultBody(result))
  }
}
