/**
 * handleError: a failed list call is reported on one line. An API status
 * error is reported by the message the server put in its status; any other
 * error by its own text.
 */
module Errors {

  /** The two kinds of failure the monitor tells apart. */
  datatype FetchError =
    | StatusError(serverMessage: string)  // a *StatusError; ErrStatus.Message
    | OtherError(text: string)            // any other error; its Error() text

  const ErrorPrefix: string := "Error: "

  function ErrorLine(e: FetchError): (line: string)
    ensures |line| >= |ErrorPrefix| && line[..|ErrorPrefix|] == ErrorPrefix
    ensures e.StatusError? ==> line[|ErrorPrefix|..] == e.serverMessage
    ensures e.OtherError? ==> line[|ErrorPrefix|..] == e.text
  {
    match e
    case StatusError(message) => ErrorPrefix + message
    case OtherError(text) => ErrorPrefix + text
  }
}
