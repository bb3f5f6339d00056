# Spotify Web API wrapper: response classification and playable-object dispatch

This project models the two pieces of decision logic in a Java client library for the Spotify Web API.

- **ResponseChecker** looks the HTTP status code of a Retrofit response up in a fixed table.
  The table holds handlers for 200, 400, 401 and 500; every other code goes to a default handler.
  A handler either returns quietly (200) or logs at most one SLF4J event and throws.
  The default handler reads the error body with Gson as the Spotify error envelope `{"error": {"status", "message"}}`.
  The model returns the logged events and the raised exception together as an `Outcome`.
- **AbstractPlayableObjectDeserializer** reads the `"type"` member of a JSON object.
  It looks the value up in a fixed two-entry factory table (`"track"`, `"episode"`).
  It then hands the whole element to that factory, or throws `JsonParseException("Unknown object type: " + type)`.
  The factories call Gson's `context.deserialize`.
  In the model they are the two functions of a `Context` parameter, so every property holds for any deserializer behaviour.

Modules:
- `Wrappers` (Option, Result)
- `Exceptions` (the Java exceptions raised, kept distinct)
- `JavaText` (`Integer.toString` and an inverse parser)
- `Logging` (level, and SLF4J `{}` substitution)
- `Json` (Gson's element kinds and the accessors the deserializer calls)
- `ResponseChecker`
- `PlayableObjects`

Each Java exception becomes a value in the result (`Outcome.raised` for the checker, `Result.Failure` for the deserializer); nothing is excluded by a precondition.

The model follows the code, including these behaviours a reader might not expect:
- A present but malformed error body makes `gson.fromJson` throw `JsonSyntaxException`; it does not give `"Unknown error occurred."`.
- An envelope without an `error` member dereferences null at line 85 before anything is logged.
- An unknown `type` and a missing `type` fail differently. The first raises `JsonParseException`. The second raises `NullPointerException` from `getAsString` on the null member.
- The 401 and 500 handlers log a different wording from the one they throw. They log "Unauthorized Access: " and "Internal Server Error: ", and they throw "Unauthorized: " and "Server Error: ".

## Model

| member | source | states |
|---|---|---|
| ResponseChecker.HandleSuccess | src/main/java/spotify/utils/ResponseChecker.java:39-43 | the success handler logs nothing and raises nothing |
| ResponseChecker.HandleBadRequest | src/main/java/spotify/utils/ResponseChecker.java:46-52 | exactly one warn event "Bad Request: " + message, then SpotifyActionFailedException("Bad Request: " + message) |
| ResponseChecker.HandleUnauthorized | src/main/java/spotify/utils/ResponseChecker.java:56-62 | exactly one error event "Unauthorized Access: " + message, then SpotifyActionFailedException("Unauthorized: " + message) |
| ResponseChecker.HandleServerError | src/main/java/spotify/utils/ResponseChecker.java:66-72 | exactly one error event "Internal Server Error: " + message, then SpotifyActionFailedException("Server Error: " + message) |
| ResponseChecker.ReportApiError | src/main/java/spotify/utils/ResponseChecker.java:85-86 | an envelope's error is logged once at error level as "Spotify API Error: <status in decimal> - <message>" and its message alone is thrown |
| ResponseChecker.HandleDefault | src/main/java/spotify/utils/ResponseChecker.java:76-90 | no body or an empty body: "Unknown error occurred." and no log; malformed body: JsonSyntaxException, no log; envelope without error: NullPointerException, no log; envelope with error: one error log and its message thrown |
| ResponseChecker.ThrowIfRequestHasNotBeenFulfilledCorrectly | src/main/java/spotify/utils/ResponseChecker.java:17-30 | the checker passes if and only if the code is 200, a pass logs nothing, and no response logs more than one event |
| ResponseChecker.CheckerMatchesClassification | src/main/java/spotify/utils/ResponseChecker.java:17-90 | for every response the table-driven dispatch equals a reference classification written per status code without the table |
| ResponseChecker.ExpectedStatusCodeIgnored | src/main/java/spotify/utils/ResponseChecker.java:26-30 | the outcome is the same whatever expectedStatusCode is passed |
| ResponseChecker.UnlistedCodesReachDefault | src/main/java/spotify/utils/ResponseChecker.java:28 | every code other than 200, 400, 401 and 500 (other 2xx codes included) runs the default handler and fails |
| ResponseChecker.UnknownErrorIsNotLogged | src/main/java/spotify/utils/ResponseChecker.java:81-89 | with an unlisted code and no usable body the outcome is exactly "Unknown error occurred." with an empty log |
| ResponseChecker.LogLevelFollowsCode | src/main/java/spotify/utils/ResponseChecker.java:49-85 | a logged event is at warn level exactly when the code is 400 |
| ResponseChecker.ExhaustedBodyChangesOutcome | src/main/java/spotify/utils/ResponseChecker.java:81-89 | for an unlisted code, an envelope with an error gives a different outcome from the same response whose body reads as empty, as a second read of the consumed stream would: no log and "Unknown error occurred." instead of the envelope's message |
| ResponseChecker.NotFoundEnvelopeExample | src/main/java/spotify/utils/ResponseChecker.java:80-87 | code 404 with envelope (404, "Not found") throws "Not found" after logging "Spotify API Error: 404 - Not found" |
| Logging.FormatFirstAnchor | src/main/java/spotify/utils/ResponseChecker.java:50 | SLF4J substitutes the first argument into the first "{}" of a pattern, with the text before it unchanged |
| Logging.FormatOneArgument | src/main/java/spotify/utils/ResponseChecker.java:60 | a one-anchor pattern "P{}" renders as P followed by the argument |
| Logging.FormatTwoArguments | src/main/java/spotify/utils/ResponseChecker.java:85 | a two-anchor pattern renders its two arguments in order with the surrounding text unchanged |
| Logging.Format | src/main/java/spotify/utils/ResponseChecker.java:50-85 | SLF4J's left-to-right "{}" substitution used by the logging calls at lines 50, 60, 70 and 85; a pattern given no arguments is logged unchanged, anchors included |
| JavaText.NatToString | src/main/java/spotify/utils/ResponseChecker.java:85 | the decimal rendering of a status magnitude is non-empty, all digits, and without leading zeros |
| JavaText.IntToString | src/main/java/spotify/utils/ResponseChecker.java:85 | a status renders with a leading '-' exactly when negative, followed by digits |
| JavaText.IntToStringRoundTrip | src/main/java/spotify/utils/ResponseChecker.java:85 | parsing the logged decimal status gives back the status |
| JavaText.IntToStringInjective | src/main/java/spotify/utils/ResponseChecker.java:85 | distinct statuses are logged as distinct text |
| Json.GetAsString | src/main/java/spotify/factories/AbstractPlayableObjectDeserializer.java:27 | getAsString yields the text of string, number and boolean primitives, throws UnsupportedOperationException on null and objects, and throws only IllegalStateException or UnsupportedOperationException |
| Json.SingletonArraysReadAsTheirElement | src/main/java/spotify/factories/AbstractPlayableObjectDeserializer.java:27 | one-element arrays, nested to any depth, read as their innermost element |
| PlayableObjects.Produce | src/main/java/spotify/models/generic/EpisodePlayableObjectFactory.java:10-12 | a factory's success is of its own concrete class: Track for the track factory, Episode for the episode factory |
| PlayableObjects.ObjectType | src/main/java/spotify/factories/AbstractPlayableObjectDeserializer.java:25-27 | the discriminator read fails with IllegalStateException when the element is not an object (getAsJsonObject), with NullPointerException exactly when the "type" member is absent (get returns null), and otherwise is getAsString of the member |
| PlayableObjects.SelectFactory | src/main/java/spotify/factories/AbstractPlayableObjectDeserializer.java:16-36 | the lookup succeeds exactly for "track" and "episode", picks the matching factory, and otherwise fails with the read's exception or "Unknown object type: " + type |
| PlayableObjects.Deserialize | src/main/java/spotify/factories/AbstractPlayableObjectDeserializer.java:24-37 | a decoded value is a Track only when the discriminator is "track" and an Episode only when it is "episode" |
| PlayableObjects.TrackDelegatesWholeElement | src/main/java/spotify/factories/AbstractPlayableObjectDeserializer.java:19-33 | with "track", decoding yields exactly what the track factory makes of the unmodified element, failure included |
| PlayableObjects.EpisodeDelegatesWholeElement | src/main/java/spotify/factories/AbstractPlayableObjectDeserializer.java:20-33 | with "episode", decoding yields exactly the EpisodeFull the episode factory makes of the unmodified element, failure included |
| PlayableObjects.DecodeSucceedsIffKnownType | src/main/java/spotify/factories/AbstractPlayableObjectDeserializer.java:16-36 | decoding succeeds if and only if the discriminator is one of the two keys and the selected factory succeeds |
| PlayableObjects.UnknownTypeInvokesNoFactory | src/main/java/spotify/factories/AbstractPlayableObjectDeserializer.java:30-36 | any other discriminator fails, with "Unknown object type: " + type when it was readable, and the result is independent of the factories |
| PlayableObjects.MissingTypeIsNullDereference | src/main/java/spotify/factories/AbstractPlayableObjectDeserializer.java:26-27 | an object without "type" fails with NullPointerException, before any lookup |
| PlayableObjects.OnlyTypeMemberSelects | src/main/java/spotify/factories/AbstractPlayableObjectDeserializer.java:26-30 | two objects that agree on the "type" member select the same branch |
| PlayableObjects.OtherMembersDoNotSelect | src/main/java/spotify/factories/AbstractPlayableObjectDeserializer.java:26-30 | changing any member other than "type" leaves the branch unchanged |
| PlayableObjects.LookupIsCaseSensitive | src/main/java/spotify/factories/AbstractPlayableObjectDeserializer.java:30-35 | "Track" is not "track": it fails with "Unknown object type: Track" |
| PlayableObjects.NestedDiscriminatorSelectsTrack | src/main/java/spotify/factories/AbstractPlayableObjectDeserializer.java:27-30 | a "type" of "track" wrapped in one-element arrays still selects the track factory, because the read is getAsString |

## Left out

- Gson parsing of text: the error body is given as what `gson.fromJson` yields for it (empty, malformed, or a bound `SpotifyError`). The track and episode payloads are decoded by the `Context` functions, which stand for `context.deserialize`.
- Retrofit and OkHttp types: a response is the record of `code()`, `message()` and `errorBody()`. `charStream` is not modelled. The error body is a one-shot stream: line 83 reads it to the end, and a second check of the same response would find it exhausted. The model does not carry that state. Each call sees its body as a fresh value.
- SLF4J: logger names and configuration are not modelled. The `\{}` escape and a trailing throwable argument are not modelled; none of the patterns here use them.
- Java null strings: `message()` and the envelope's message are modelled as strings, never null. A null envelope message would be logged as "null" at line 85, but line 86 would pass the null itself to the exception, so its message would be null rather than the text "null". A null `message()` would become "null" through the concatenations at lines 51, 61 and 71, but OkHttp's response builder refuses a null message, so those lines never see one.
- Integer width: the envelope status is a Java `int`. The model uses unbounded integers; `Integer.toString` agrees with `IntToString` on every 32-bit value.
- Gson accessor behaviour (`getAsJsonObject`, `get`, `getAsString`, a number's text being its literal) is the Gson library's. The library is not part of this model and is stated here as it behaves.
- A top-level JSON null never reaches `deserialize` because Gson returns null for it first. Gson's calling code is not part of this model.
- `TrackPlayableObjectFactory` is not part of this model. It is taken to delegate to `context.deserialize` the way the episode factory does.
- `HttpStatusCode` is not part of this model. It appears only as the ignored argument.
- The exception thrown for an IOException (`HttpRequestFailedException`) comes from code that is not part of this model.
- Repeated checks: the handler table (lines 17-24) is never changed, so earlier calls cannot change which handler runs. Earlier calls can still change the outcome. Re-checking a response whose error body was already read behaves like `EmptyBody`, which `ExhaustedBodyChangesOutcome` shows gives a different outcome. The model takes each response as a fresh value.
