/** The `POST /api/identify-plant` handler: reads `photoDataUri` from the JSON
    body, rejects a falsy one with 400, rejects an unset credential with 500,
    and otherwise forwards `{ photoDataUri }` to the identification provider,
    answering with its result verbatim.  Anything thrown on the way (a body
    that is not JSON, a `null` body, a provider failure) becomes a 500. */
module IdentifyRoute {
  import opened JsValues
  import opened Identification
  import opened Http

  /** The provider's input `{ photoDataUri }`, holding the body's value as is. */
  datatype IdentifyInput = IdentifyInput(photoDataUri: JsValue)

  const MISSING_PHOTO := "Photo data URI is required"
  const FAILED := "Failed to identify plant"

  /** The `photoDataUri` a readable body yields: the value stored under that
      key, or `undefined` when the body holds none. */
  function Photo(request: Result<Json, Thrown>): (v: JsValue)
    requires Readable(request)
    ensures v == if request.value.JObj? && "photoDataUri" in request.value.fields
                 then Defined(request.value.fields["photoDataUri"]) else Undefined
  {
    Property(request.value, "photoDataUri", "").value
  }

  /** The request passes input validation. */
  predicate PhotoGiven(request: Result<Json, Thrown>)
  {
    Readable(request) && Truthy(Photo(request))
  }

  /** The handler, given the outcome of `request.json()` (a parse failure is
      what it throws), the message the engine gives the `TypeError` of
      destructuring a `null` body, the credential from the environment and
      the provider. */
  function Post(request: Result<Json, Thrown>, typeError: string, apiKey: Option<string>,
                identify: IdentifyInput -> Outcome<IdentifyOutput>): (ex: Exchange<IdentifyInput, IdentifyOutput>)
    // the provider is called exactly when both checks pass, with the body's value unchanged
    ensures ex.call.Some? <==> PhotoGiven(request) && KeyConfigured(apiKey)
    ensures ex.call.Some? ==> ex.call.value == IdentifyInput(Photo(request))
    // a readable body without a truthy photo: 400, whatever the credential
    ensures Readable(request) && !PhotoGiven(request) <==> ex.response.status == 400
    ensures ex.response.status == 400 ==> ex.response.body == ErrorBody(MISSING_PHOTO, None)
    // a photo but no credential: the configuration error
    ensures PhotoGiven(request) && !KeyConfigured(apiKey) ==> ex.response == ConfigurationError()
    // the provider's result is sent back verbatim with status 200, and only then is the status 200
    ensures ex.response.status == 200 <==> ex.call.Some? && identify(ex.call.value).Returned?
    ensures ex.response.status == 200 ==> ex.response.body == ResultBody(identify(ex.call.value).value)
    // whatever is thrown becomes the handler's own 500
    ensures !Readable(request) ==> ex.response == Caught(FAILED, if request.Err? then request.error else ErrorInstance(typeError))
    ensures ex.call.Some? && identify(ex.call.value).Threw? ==> ex.response == Caught(FAILED, identify(ex.call.value).thrown)
    ensures ex.response.status in {200, 400, 500}
  {
    match request
    case Err(t) => Exchange(Caught(FAILED, t), None)
    case Ok(body) =>
      match Property(body, "photoDataUri", typeError)
      case Err(t) => Exchange(Caught(FAILED, t), None)
      case Ok(photoDataUri) =>
        if !Truthy(photoDataUri) then
          Exchange(Response(400, ErrorBody(MISSING_PHOTO, None)), None)
        else if !KeyConfigured(apiKey) then
          Exchange(ConfigurationError(), None)
        else
          var input := IdentifyInput(photoDataUri);
          match identify(input)
          case Returned(result) => Exchange(Success(result), Some(input))
          case Threw(t) => Exchange(Caught(FAILED, t), Some(input))
  }

  /** Input validation comes first: a readable body without a truthy photo
      gets the same 400 whatever the credential and whatever the provider
      would have done, and the provider is not called. */
  lemma InputCheckFirst(request: Result<Json, Thrown>, typeError: string, key1: Option<string>, key2: Option<string>,
                        p1: IdentifyInput -> Outcome<IdentifyOutput>, p2: IdentifyInput -> Outcome<IdentifyOutput>)
    requires Readable(request) && !Truthy(Photo(request))
    ensures Post(request, typeError, key1, p1) == Post(request, typeError, key2, p2)
    ensures Post(request, typeError, key1, p1) == Exchange(Response(400, ErrorBody(MISSING_PHOTO, None)), None)
  {
  }

  /** The credential check comes before the provider call: with a photo and
      no credential the response does not depend on the provider, which is
      not called. */
  lemma KeyCheckBeforeProvider(request: Result<Json, Thrown>, typeError: string, apiKey: Option<string>,
                               p1: IdentifyInput -> Outcome<IdentifyOutput>, p2: IdentifyInput -> Outcome<IdentifyOutput>)
    requires PhotoGiven(request) && !KeyConfigured(apiKey)
    ensures Post(request, typeError, apiKey, p1) == Post(request, typeError, apiKey, p2)
    ensures Post(request, typeError, apiKey, p1) == Exchange(ConfigurationError(), None)
  {
  }

  /** An empty JSON object is a 400 and never reaches the provider, while a
      request whose text is not JSON at all (an empty body, say) makes
      `request.json()` throw and is answered with the handler's 500. */
  lemma EmptyBodies(typeError: string, apiKey: Option<string>, identify: IdentifyInput -> Outcome<IdentifyOutput>,
                    syntaxError: string)
    ensures Post(Ok(JObj(map[])), typeError, apiKey, identify).response.status == 400
    ensures Post(Ok(JObj(map[])), typeError, apiKey, identify).call == None
    ensures Post(Err(ErrorInstance(syntaxError)), typeError, apiKey, identify)
         == Exchange(Response(500, ErrorBody(FAILED, Some(syntaxError))), None)
  {
  }
}
