/** The response shapes every tool handler of the services produces, and the
    abstract outcome of the one outbound HTTP call a handler may make. */
module Envelope {

  datatype Option<T> = None | Some(value: T)

  /** JavaScript's conversion of a number to text inside a template literal.
      The model leaves it abstract: every use takes it as a parameter. */
  type NumFormat = real -> string

  /** JavaScript truthiness of a value that is a string or undefined:
      present and not the empty string. */
  predicate Truthy(s: Option<string>)
  {
    s.Some? && s.value != ""
  }

  /** A `{ type: "text", text }` content block. */
  datatype TextBlock = Text(text: string)

  /** A tool result: content blocks in order, and the `isError` flag
      (a success envelope omits the flag, which reads as false). */
  datatype Envelope = Envelope(content: seq<TextBlock>, isError: bool)

  /** The texts of an envelope's blocks, in order. */
  function Texts(e: Envelope): seq<string>
  {
    seq(|e.content|, i requires 0 <= i < |e.content| => e.content[i].text)
  }

  /** A success envelope with one text block per line, no `isError` flag. */
  function Success(lines: seq<string>): (e: Envelope)
    ensures !e.isError
    ensures |e.content| == |lines|
    ensures Texts(e) == lines
  {
    Envelope(seq(|lines|, i requires 0 <= i < |lines| => Text(lines[i])), false)
  }

  /** An error envelope: exactly one text block and `isError: true`. */
  function Failure(message: string): (e: Envelope)
    ensures e.isError
    ensures |e.content| == 1
    ensures Texts(e) == [message]
  {
    Envelope([Text(message)], true)
  }

  /** The response an axios error carries when the server answered: its
      HTTP status, and the `status` field of the response body when that is
      present (a text). */
  datatype ErrorResponse = ErrorResponse(status: int, bodyStatus: Option<string>)

  /** What a caught exception can be, as the handlers' catch blocks tell them
      apart: an error raised by axios (with the server's response, None when
      no response arrived, and its `message`), or anything else thrown
      (`errorMessage` is its `message` when it is an `Error` instance, None
      when it is not). */
  datatype Thrown =
    | AxiosError(response: Option<ErrorResponse>, message: string)
    | OtherError(errorMessage: Option<string>)

  /** The outcome of one outbound HTTP call: the parsed payload or a failure. */
  datatype Outcome<T> = Ok(data: T) | Err(thrown: Thrown)

  /** `error instanceof Error ? error.message : "Unknown error"`; an axios
      error is an `Error` instance. */
  function ErrorMessage(f: Thrown): (m: string)
    ensures f.AxiosError? ==> m == f.message
    ensures f.OtherError? && f.errorMessage.Some? ==> m == f.errorMessage.value
    ensures f.OtherError? && f.errorMessage.None? ==> m == "Unknown error"
  {
    match f
    case AxiosError(_, message) => message
    case OtherError(Some(message)) => message
    case OtherError(None) => "Unknown error"
  }

  /** What a handler that may call upstream does for one invocation: the URL
      it requested (None when it sent no request) and the envelope it returned. */
  datatype Reply = Reply(requested: Option<string>, envelope: Envelope)
}
