/** The `POST /api/answer-question` handler: destructures the five fields of
    the JSON body, rejects a falsy `plantName` or `question` with 400, rejects
    an unset credential with 500, and otherwise forwards all five fields as
    read to the question-answering provider, answering with its result
    verbatim.  Anything thrown on the way becomes a 500. */
module AnswerRoute {
  import opened JsValues
  import opened Identification
  import opened Http

  /** The provider's input: the five destructured fields, each as read from
      the body (`undefined` when absent). */
  datatype AnswerInput = AnswerInput(
    plantName: JsValue,
    organName: JsValue,
    speciesName: JsValue,
    plantHealth: JsValue,
    question: JsValue)

  const MISSING_FIELDS := "Plant name and question are required"
  const FAILED := "Failed to answer question"

  /** `const { plantName, organName, speciesName, plantHealth, question } = body`
      on a readable body: each field is the value stored under its key, or
      `undefined` when the body holds none. */
  function Fields(request: Result<Json, Thrown>): (input: AnswerInput)
    requires Readable(request)
    ensures var b := request.value;
      input.plantName == if b.JObj? && "plantName" in b.fields then Defined(b.fields["plantName"]) else Undefined
    ensures var b := request.value;
      input.organName == if b.JObj? && "organName" in b.fields then Defined(b.fields["organName"]) else Undefined
    ensures var b := request.value;
      input.speciesName == if b.JObj? && "speciesName" in b.fields then Defined(b.fields["speciesName"]) else Undefined
    ensures var b := request.value;
      input.plantHealth == if b.JObj? && "plantHealth" in b.fields then Defined(b.fields["plantHealth"]) else Undefined
    ensures var b := request.value;
      input.question == if b.JObj? && "question" in b.fields then Defined(b.fields["question"]) else Undefined
  {
    var body := request.value;
    AnswerInput(
      Property(body, "plantName", "").value,
      Property(body, "organName", "").value,
      Property(body, "speciesName", "").value,
      Property(body, "plantHealth", "").value,
      Property(body, "question", "").value)
  }

  /** The request passes input validation: only `plantName` and `question`
      are checked. */
  predicate RequiredGiven(request: Result<Json, Thrown>)
  {
    Readable(request) && Truthy(Fields(request).plantName) && Truthy(Fields(request).question)
  }

  /** The handler, given the outcome of `request.json()`, the message the
      engine gives the `TypeError` of destructuring a `null` body, the
      credential from the environment and the provider. */
  function Post(request: Result<Json, Thrown>, typeError: string, apiKey: Option<string>,
                answer: AnswerInput -> Outcome<AnswerOutput>): (ex: Exchange<AnswerInput, AnswerOutput>)
    // the provider is called exactly when both checks pass, with the five fields unchanged
    ensures ex.call.Some? <==> RequiredGiven(request) && KeyConfigured(apiKey)
    ensures ex.call.Some? ==> ex.call.value == Fields(request)
    // a readable body with a falsy plantName or question: 400, whatever the credential
    ensures Readable(request) && !RequiredGiven(request) <==> ex.response.status == 400
    ensures ex.response.status == 400 ==> ex.response.body == ErrorBody(MISSING_FIELDS, None)
    // required fields but no credential: the configuration error
    ensures RequiredGiven(request) && !KeyConfigured(apiKey) ==> ex.response == ConfigurationError()
    // the provider's result is sent back verbatim with status 200, and only then is the status 200
    ensures ex.response.status == 200 <==> ex.call.Some? && answer(ex.call.value).Returned?
    ensures ex.response.status == 200 ==> ex.response.body == ResultBody(answer(ex.call.value).value)
    // whatever is thrown becomes the handler's own 500
    ensures !Readable(request) ==> ex.response == Caught(FAILED, if request.Err? then request.error else ErrorInstance(typeError))
    ensures ex.call.Some? && answer(ex.call.value).Threw? ==> ex.response == Caught(FAILED, answer(ex.call.value).thrown)
    ensures ex.response.status in {200, 400, 500}
  {
    match request
    case Err(t) => Exchange(Caught(FAILED, t), None)
    case Ok(body) =>
      // destructuring a null body throws on its first property
      match Property(body, "plantName", typeError)
      case Err(t) => Exchange(Caught(FAILED, t), None)
      case Ok(_) =>
        var input := Fields(request);
        if !Truthy(input.plantName) || !Truthy(input.question) then
          Exchange(Response(400, ErrorBody(MISSING_FIELDS, None)), None)
        else if !KeyConfigured(apiKey) then
          Exchange(ConfigurationError(), None)
        else
          match answer(input)
          case Returned(result) => Exchange(Success(result), Some(input))
          case Threw(t) => Exchange(Caught(FAILED, t), Some(input))
  }

  /** `organName`, `speciesName` and `plantHealth` are not validated: adding,
      changing or dropping them in an object body never turns a request into
      a 400 or out of one, nor changes whether the provider is called. */
  lemma OptionalFieldsNotValidated(fields: map<string, Json>, extra: map<string, Json>, typeError: string, apiKey: Option<string>,
                                   p: AnswerInput -> Outcome<AnswerOutput>)
    requires "plantName" !in extra && "question" !in extra
    ensures (Post(Ok(JObj(fields + extra)), typeError, apiKey, p).response.status == 400)
        == (Post(Ok(JObj(fields)), typeError, apiKey, p).response.status == 400)
    ensures Post(Ok(JObj(fields + extra)), typeError, apiKey, p).call.Some?
        == Post(Ok(JObj(fields)), typeError, apiKey, p).call.Some?
  {
  }

  /** Input validation comes first: a readable body lacking a truthy
      `plantName` or `question` gets the same 400 whatever the credential and
      the provider, and the provider is not called. */
  lemma InputCheckFirst(request: Result<Json, Thrown>, typeError: string, key1: Option<string>, key2: Option<string>,
                        p1: AnswerInput -> Outcome<AnswerOutput>, p2: AnswerInput -> Outcome<AnswerOutput>)
    requires Readable(request) && !RequiredGiven(request)
    ensures Post(request, typeError, key1, p1) == Post(request, typeError, key2, p2)
    ensures Post(request, typeError, key1, p1) == Exchange(Response(400, ErrorBody(MISSING_FIELDS, None)), None)
  {
  }

  /** The credential check comes before the provider call: with both required
      fields and no credential the response does not depend on the provider,
      which is not called. */
  lemma KeyCheckBeforeProvider(request: Result<Json, Thrown>, typeError: string, apiKey: Option<string>,
                               p1: AnswerInput -> Outcome<AnswerOutput>, p2: AnswerInput -> Outcome<AnswerOutput>)
    requires RequiredGiven(request) && !KeyConfigured(apiKey)
    ensures Post(request, typeError, apiKey, p1) == Post(request, typeError, apiKey, p2)
    ensures Post(request, typeError, apiKey, p1) == Exchange(ConfigurationError(), None)
  {
  }

  /** A body without a question is a 400 and never reaches the provider. */
  lemma MissingQuestion(fields: map<string, Json>, typeError: string, apiKey: Option<string>, p: AnswerInput -> Outcome<AnswerOutput>)
    requires "question" !in fields
    ensures Post(Ok(JObj(fields)), typeError, apiKey, p) == Exchange(Response(400, ErrorBody(MISSING_FIELDS, None)), None)
  {
  }
}
