/**
 * Values and errors shared by every part of the model.
 *
 * A thrown JavaScript/NestJS exception becomes `Fail(Error(kind, message))`:
 * the kind is the exception class (plain `Error`, `BadRequestException`, ...)
 * and the message is its `.message`.
 */
module Outcomes {

  datatype Option<+T> = None | Some(value: T)

  /** The exception classes the core throws or inspects. */
  datatype ErrorKind =
    | Plain                   // new Error(...)
    | BadRequest              // BadRequestException (HTTP 400)
    | Unauthorized            // UnauthorizedException (HTTP 401)
    | UnsupportedMediaType    // UnsupportedMediaTypeException (HTTP 415)
    | TranscriptNotAvailable  // YoutubeTranscriptNotAvailableError of youtube-transcript

  datatype Error = Error(kind: ErrorKind, message: string)

  datatype Result<+T> = Ok(value: T) | Fail(error: Error)

  /** What a foreign call does: return a value or throw with a message. */
  datatype Reply<+T> = Done(value: T) | Threw(message: string)

  /** JavaScript truthiness of an optional string: present and not empty. */
  predicate Truthy(s: Option<string>) {
    s.Some? && s.value != ""
  }

  /** JavaScript template rendering of `string | undefined`. */
  function Render(s: Option<string>): string {
    if s.Some? then s.value else "undefined"
  }
}
