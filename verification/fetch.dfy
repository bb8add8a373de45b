/** What the screens know about a call to the API: the reply is abstract, either a
    response with an HTTP status and a body, or an exception. */
module Fetch {

  /** The RESULT_STATUS values a screen moves through. */
  datatype ResultStatus = Loading | Loaded | NoRecord | Error

  /** The settled value of an awaited service call. */
  datatype Reply<T> = Response(status: int, data: T) | Thrown

  /** Logging two statuses one after the other logs the pair. */
  lemma AppendTwo<T>(log: seq<T>, a: T, b: T)
    ensures log + [a] + [b] == log + [a, b]
  {
    assert (log + [a] + [b])[|log|..] == [a, b];
  }
}
