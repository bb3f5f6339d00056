/**
 * ResponseChecker: a fixed table from HTTP status code to handler, and the
 * handlers themselves. A handler either returns quietly or logs at most one
 * event and raises an exception; the model returns both as an Outcome.
 */
module ResponseChecker {
  import opened Wrappers
  import opened Exceptions
  import opened Logging
  import opened JavaText

  /** The inner object of the error envelope: {"status": ..., "message": ...}. */
  datatype ApiError = ApiError(status: int, message: string)

  /** The envelope {"error": {...}} as Gson binds it; `error` is None when the member is missing. */
  datatype SpotifyError = SpotifyError(error: Option<ApiError>)

  /** A present error body, described by what gson.fromJson makes of its character stream. */
  datatype ErrorBody =
    /** fromJson returns null (an empty, blank or `null` body) */
    | EmptyBody
    /** the stream is not a JSON document that binds to SpotifyError: fromJson throws */
    | MalformedBody
    /** the stream binds to a SpotifyError */
    | WellFormedBody(parsed: SpotifyError)

  /** The parts of a Retrofit response the checker reads: code(), message() and errorBody(). */
  datatype Response = Response(code: int, message: string, errorBody: Option<ErrorBody>)

  /** The HttpStatusCode enum value the caller passes in; the checker never reads it. */
  datatype HttpStatusCode = HttpStatusCode(code: int)

  /** What handling a response did: the events logged, then the exception raised, if any. */
  datatype Outcome = Outcome(log: seq<LogEvent>, raised: Option<Exception>) {
    predicate Passed() {
      raised.None?
    }
  }

  datatype Handler =
    | SuccessHandler
    | BadRequestHandler
    | UnauthorizedHandler
    | ServerErrorHandler
    | DefaultErrorHandler

  /** The static handler table, filled once and never changed. */
  const Handlers: map<int, Handler> :=
    map[200 := SuccessHandler, 400 := BadRequestHandler, 401 := UnauthorizedHandler, 500 := ServerErrorHandler]

  const UnknownErrorMessage: string := "Unknown error occurred."

  /** Log one event, then raise SpotifyActionFailedException with the given message. */
  function LogAndFail(level: Level, pattern: string, args: seq<string>, message: string): Outcome
  {
    Outcome([LogEvent(level, Format(pattern, args))], Some(SpotifyActionFailed(message)))
  }

  function HandleSuccess(response: Response): (o: Outcome)
    ensures o.Passed() && o.log == []
  {
    Outcome([], None)
  }

  function HandleBadRequest(response: Response): (o: Outcome)
    ensures o.log == [LogEvent(Warn, "Bad Request: " + response.message)]
    ensures o.raised == Some(SpotifyActionFailed("Bad Request: " + response.message))
  {
    var prefix := "Bad Request: ";
    FormatOneArgument(prefix, response.message);
    LogAndFail(Warn, prefix + "{}", [response.message], "Bad Request: " + response.message)
  }

  function HandleUnauthorized(response: Response): (o: Outcome)
    ensures o.log == [LogEvent(Error, "Unauthorized Access: " + response.message)]
    ensures o.raised == Some(SpotifyActionFailed("Unauthorized: " + response.message))
  {
    var prefix := "Unauthorized Access: ";
    FormatOneArgument(prefix, response.message);
    LogAndFail(Error, prefix + "{}", [response.message], "Unauthorized: " + response.message)
  }

  function HandleServerError(response: Response): (o: Outcome)
    ensures o.log == [LogEvent(Error, "Internal Server Error: " + response.message)]
    ensures o.raised == Some(SpotifyActionFailed("Server Error: " + response.message))
  {
    var prefix := "Internal Server Error: ";
    FormatOneArgument(prefix, response.message);
    LogAndFail(Error, prefix + "{}", [response.message], "Server Error: " + response.message)
  }

  /** The envelope branch of the default handler: log status and message, fail with the message. */
  function ReportApiError(e: ApiError): (o: Outcome)
    ensures o.log == [LogEvent(Error, "Spotify API Error: " + IntToString(e.status) + " - " + e.message)]
    ensures o.raised == Some(SpotifyActionFailed(e.message))
  {
    var prefix, separator := "Spotify API Error: ", " - ";
    FormatTwoArguments(prefix, IntToString(e.status), separator, e.message);
    LogAndFail(Error, prefix + "{}" + separator + "{}", [IntToString(e.status), e.message], e.message)
  }

  /**
   * The default handler: with a body that binds to an envelope holding an
   * error object, log its status and message and fail with the message;
   * with no body or an empty one, fail with a fixed message and no log.
   */
  function HandleDefault(response: Response): (o: Outcome)
    ensures response.errorBody.None? || response.errorBody == Some(EmptyBody) ==>
              o == Outcome([], Some(SpotifyActionFailed(UnknownErrorMessage)))
    ensures response.errorBody == Some(MalformedBody) ==> o == Outcome([], Some(JsonSyntax))
    ensures response.errorBody == Some(WellFormedBody(SpotifyError(None))) ==> o == Outcome([], Some(NullPointer))
    ensures forall e :: response.errorBody == Some(WellFormedBody(SpotifyError(Some(e)))) ==>
              o.log == [LogEvent(Error, "Spotify API Error: " + IntToString(e.status) + " - " + e.message)] &&
              o.raised == Some(SpotifyActionFailed(e.message))
  {
    match response.errorBody
    case None => Outcome([], Some(SpotifyActionFailed(UnknownErrorMessage)))
    case Some(EmptyBody) => Outcome([], Some(SpotifyActionFailed(UnknownErrorMessage)))
    case Some(MalformedBody) => Outcome([], Some(JsonSyntax))
    case Some(WellFormedBody(spotifyError)) =>
      match spotifyError.error
      case None => Outcome([], Some(NullPointer))
      case Some(e) => ReportApiError(e)
  }

  function Handle(handler: Handler, response: Response): Outcome
  {
    match handler
    case SuccessHandler => HandleSuccess(response)
    case BadRequestHandler => HandleBadRequest(response)
    case UnauthorizedHandler => HandleUnauthorized(response)
    case ServerErrorHandler => HandleServerError(response)
    case DefaultErrorHandler => HandleDefault(response)
  }

  /** Look the status code up in the table, fall back to the default handler, and run it. */
  function ThrowIfRequestHasNotBeenFulfilledCorrectly(response: Response, expectedStatusCode: HttpStatusCode): (o: Outcome)
    ensures o.Passed() <==> response.code == 200
    ensures o.Passed() ==> o.log == []
    ensures |o.log| <= 1
  {
    var handler := if response.code in Handlers then Handlers[response.code] else DefaultErrorHandler;
    Handle(handler, response)
  }

  /**
   * The classification written case by case from the status code, without
   * the handler table: the reference the table-driven dispatch must agree with.
   */
  ghost function Classification(response: Response): Outcome
  {
    var m := response.message;
    if response.code == 200 then Outcome([], None)
    else if response.code == 400 then
      Outcome([LogEvent(Warn, "Bad Request: " + m)], Some(SpotifyActionFailed("Bad Request: " + m)))
    else if response.code == 401 then
      Outcome([LogEvent(Error, "Unauthorized Access: " + m)], Some(SpotifyActionFailed("Unauthorized: " + m)))
    else if response.code == 500 then
      Outcome([LogEvent(Error, "Internal Server Error: " + m)], Some(SpotifyActionFailed("Server Error: " + m)))
    else if response.errorBody == Some(MalformedBody) then Outcome([], Some(JsonSyntax))
    else if response.errorBody == Some(WellFormedBody(SpotifyError(None))) then Outcome([], Some(NullPointer))
    else if response.errorBody.Some? && response.errorBody.value.WellFormedBody? then
      var e := response.errorBody.value.parsed.error.value;
      Outcome([LogEvent(Error, "Spotify API Error: " + IntToString(e.status) + " - " + e.message)],
              Some(SpotifyActionFailed(e.message)))
    else Outcome([], Some(SpotifyActionFailed(UnknownErrorMessage)))
  }

  /** The table-driven checker produces exactly the reference classification, for every response. */
  lemma CheckerMatchesClassification(response: Response, expectedStatusCode: HttpStatusCode)
    ensures ThrowIfRequestHasNotBeenFulfilledCorrectly(response, expectedStatusCode) == Classification(response)
  {
  }

  /** The expectedStatusCode argument has no influence on the outcome. */
  lemma ExpectedStatusCodeIgnored(response: Response, expected: HttpStatusCode, other: HttpStatusCode)
    ensures ThrowIfRequestHasNotBeenFulfilledCorrectly(response, expected)
            == ThrowIfRequestHasNotBeenFulfilledCorrectly(response, other)
  {
  }

  /** Every code outside the table, 2xx codes other than 200 included, reaches the default handler and fails. */
  lemma UnlistedCodesReachDefault(response: Response, expectedStatusCode: HttpStatusCode)
    requires response.code !in {200, 400, 401, 500}
    ensures ThrowIfRequestHasNotBeenFulfilledCorrectly(response, expectedStatusCode) == HandleDefault(response)
    ensures !ThrowIfRequestHasNotBeenFulfilledCorrectly(response, expectedStatusCode).Passed()
  {
  }

  /** The fixed unknown-error failure is raised without any log event. */
  lemma UnknownErrorIsNotLogged(response: Response, expectedStatusCode: HttpStatusCode)
    requires response.code !in {200, 400, 401, 500}
    requires response.errorBody.None? || response.errorBody == Some(EmptyBody)
    ensures ThrowIfRequestHasNotBeenFulfilledCorrectly(response, expectedStatusCode)
            == Outcome([], Some(SpotifyActionFailed(UnknownErrorMessage)))
  {
  }

  /** A warning is logged for 400 alone; every other logged event is at error level. */
  lemma LogLevelFollowsCode(response: Response, expectedStatusCode: HttpStatusCode)
    ensures var o := ThrowIfRequestHasNotBeenFulfilledCorrectly(response, expectedStatusCode);
            forall event :: event in o.log ==> (event.level == Warn <==> response.code == 400)
  {
  }

  /**
   * An unlisted code with the envelope {"error": {"status": 404, "message":
   * "Not found"}} fails with the envelope's message and logs its status in decimal.
   */
  lemma NotFoundEnvelopeExample(expectedStatusCode: HttpStatusCode)
    ensures ThrowIfRequestHasNotBeenFulfilledCorrectly(
              Response(404, "Not Found", Some(WellFormedBody(SpotifyError(Some(ApiError(404, "Not found")))))),
              expectedStatusCode)
            == Outcome([LogEvent(Error, "Spotify API Error: 404 - Not found")], Some(SpotifyActionFailed("Not found")))
  {
    assert IntToString(404) == "404";
    assert "Spotify API Error: " + "404" + " - " + "Not found" == "Spotify API Error: 404 - Not found";
  }

  /**
   * Reading an error body consumes it, so re-checking a response whose body was
   * already read sees an empty body. For an unlisted code with an envelope,
   * that second reading has a different outcome from the first.
   */
  lemma ExhaustedBodyChangesOutcome(response: Response, expectedStatusCode: HttpStatusCode, e: ApiError)
    requires response.code !in {200, 400, 401, 500}
    requires response.errorBody == Some(WellFormedBody(SpotifyError(Some(e))))
    ensures var exhausted := response.(errorBody := Some(EmptyBody));
            && ThrowIfRequestHasNotBeenFulfilledCorrectly(exhausted, expectedStatusCode)
               == Outcome([], Some(SpotifyActionFailed(UnknownErrorMessage)))
            && |ThrowIfRequestHasNotBeenFulfilledCorrectly(response, expectedStatusCode).log| == 1
            && ThrowIfRequestHasNotBeenFulfilledCorrectly(response, expectedStatusCode)
               != ThrowIfRequestHasNotBeenFulfilledCorrectly(exhausted, expectedStatusCode)
  {
  }
}
