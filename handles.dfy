/**
 * Vocabulary shared by both checkers: the handle rule every validator applies,
 * the four verdicts, one probe's request and outcome, and the result record of
 * the serverless checker.
 */
module Handles {
  import opened Wrappers

  const MinLength: nat := 2
  const MaxLength: nat := 30

  /** `ch.isalnum()`, restricted to ASCII letters and digits. */
  predicate IsAlnum(c: char) {
    ('a' <= c <= 'z') || ('A' <= c <= 'Z') || ('0' <= c <= '9')
  }

  /** A character a handle may contain: a letter, a digit, `_` or `.`. */
  predicate IsHandleChar(c: char) {
    IsAlnum(c) || c == '_' || c == '.'
  }

  /** The rule every validator in the repository applies: 2 to 30 handle characters. */
  predicate ValidHandle(s: string) {
    && MinLength <= |s| <= MaxLength
    && forall i :: 0 <= i < |s| ==> IsHandleChar(s[i])
  }

  datatype Status = Available | Taken | Unknown | Error {
    /** The string the Python code stores under "status". */
    function Name(): string {
      match this
      case Available => "available"
      case Taken => "taken"
      case Unknown => "unknown"
      case Error => "error"
    }
  }

  /** What a probe hands to the HTTP client. */
  datatype Request = Request(verb: string, url: string, headers: map<string, string>)

  /**
   * What the HTTP client gives back: a raised exception (named by its class, as
   * `type(exc).__name__` does) or a response with its status code and body text.
   */
  datatype Outcome = Failed(exceptionName: string) | Response(statusCode: int, text: string)

  /** One entry of the serverless checker's "results" list. */
  datatype ProbeResult = ProbeResult(
    platform: string,
    url: Option<string>,
    status: Status,
    httpStatus: Option<int>,
    reason: string)
}
