/** The Java exceptions that the two dispatchers can raise, each kept as a distinct case. */
module Exceptions {

  datatype Exception =
    /** spotify.exceptions.SpotifyActionFailedException, raised by the response handlers */
    | SpotifyActionFailed(message: string)
    /** com.google.gson.JsonParseException, raised for an unknown playable-object type */
    | JsonParse(message: string)
    /** com.google.gson.JsonSyntaxException, raised by Gson when an error body is not a valid document */
    | JsonSyntax
    /** java.lang.NullPointerException: a method called on a null reference */
    | NullPointer
    /** java.lang.IllegalStateException, raised by Gson's typed accessors on the wrong kind of element */
    | IllegalState
    /** java.lang.UnsupportedOperationException, raised by Gson's getAsString on null and object elements */
    | UnsupportedOperation
}
