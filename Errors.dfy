/** The error value handed to an event handler's `on_error`: a numeric code and
    a human-readable description, rendered the same way by every formatter. */
module Errors {
  import opened Wrappers

  /** Rust's `u16`. */
  type u16 = x: int | 0 <= x < 0x1_0000

  datatype Error = Error(code: u16, description: string)

  /** `Error::new`: the error carries exactly the given code and description. */
  function New(description: string, code: u16): (e: Error)
    ensures e.code == code
    ensures e.description == description
  {
    Error(code, description)
  }

  /** `Debug::fmt`: writes the description, and nothing else, to the formatter
      whose output so far is `out`. */
  function Debug(e: Error, out: string): (written: string)
    ensures |written| == |out| + |e.description|
    ensures written[..|out|] == out && written[|out|..] == e.description
  {
    out + e.description
  }

  /** `Display::fmt`: the same rendering as `Debug`. */
  function Display(e: Error, out: string): (written: string)
    ensures |written| == |out| + |e.description|
    ensures written[..|out|] == out && written[|out|..] == e.description
  {
    out + e.description
  }

  /** `std::error::Error::description`: the stored description. */
  function Description(e: Error): (d: string)
    ensures d == e.description
  {
    e.description
  }

  /** Formatting a freshly built error into an empty formatter yields exactly
      the description it was built with, through all three renderings. */
  lemma RenderNew(description: string, code: u16)
    ensures Debug(New(description, code), "") == description
    ensures Display(New(description, code), "") == description
    ensures Description(New(description, code)) == description
  {
  }

  const TIMEOUT: string := "An error occurred due to timing out..."
  const CONNECT: string := "An error occurred when trying to connect..."
  const STATUS: string := "Status returned as an Error..."
  const REDIRECT: string := "An error occurred due to an attempted redirect..."
  const REQUEST: string := "An error occurred due to the request..."
  const BODY: string := "An error occurred with the request or response body..."
  const BUILDER: string := "An error occurred with the type builder..."
  const UNKNOWN_REQUEST: string := "An unknown error occurred with the request"
  const TASK_CANCELLED: string := "A Tokio error occurred which resulted in a check being cancelled..."
  const TASK_PANICKED: string := "An error occurred causing the Tokio task to panic..."
  const TASK_UNKNOWN: string := "An unknown Tokio Error Occurred..."

  /** The documented code table: codes 1 to 8 for HTTP client errors, 9 to 11
      for task errors; every other code is undocumented. */
  function Documented(code: u16): (d: Option<string>)
    ensures d.Some? <==> 1 <= code <= 11
  {
    match code
    case 1 => Some(TIMEOUT)
    case 2 => Some(CONNECT)
    case 3 => Some(STATUS)
    case 4 => Some(REDIRECT)
    case 5 => Some(REQUEST)
    case 6 => Some(BODY)
    case 7 => Some(BUILDER)
    case 8 => Some(UNKNOWN_REQUEST)
    case 9 => Some(TASK_CANCELLED)
    case 10 => Some(TASK_PANICKED)
    case 11 => Some(TASK_UNKNOWN)
    case _ => None
  }
}
