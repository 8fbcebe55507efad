/** What a call to `fetch` can come back with, seen from the application:
    the network itself is not modelled, only the outcomes the code branches on. */
module Http {
  import opened Js
  import Text

  /** A response: its status and what a first read of its body yields.
      `json` is the outcome of `response.json()` (the value, or the rejection message);
      `text` is the outcome of `response.text()`. A body can be read once: a
      second read of the same response is rejected (`clone()` gives a copy with
      its own, unread body). */
  datatype RawResponse = RawResponse(ok: bool, status: int, json: Result<Json, string>, text: Result<string, string>)

  /** The null body statuses of the Fetch standard (section 2.2.3 of the WHATWG
      Fetch Living Standard): a response with one of them has no body at all. */
  predicate NullBodyStatus(status: int) {
    status == 101 || status == 103 || status == 204 || status == 205 || status == 304
  }

  /** A response as `fetch` hands it out: one with a null body reads as the empty
      text, and `json()` on it rejects, since the empty text is not JSON. */
  type Response = r: RawResponse | NullBodyStatus(r.status) ==> r.json.Failure? && r.text == Success("")
    witness RawResponse(true, 200, Success(JNull), Success(""))

  /** `response.json()`, given whether the body was read before. A null body is
      never marked as used, so reading it again rejects as the first read did. */
  function ReadJson(r: Response, consumed: bool, e: Engine): (v: Result<Json, string>)
    ensures consumed && !NullBodyStatus(r.status) ==> v == Failure(e.bodyUsed)
    ensures !consumed || NullBodyStatus(r.status) ==> v == r.json
    ensures NullBodyStatus(r.status) ==> v.Failure?
  {
    if consumed && !NullBodyStatus(r.status) then Failure(e.bodyUsed) else r.json
  }

  /** `response.text()`, given whether the body was read before. A null body is
      never marked as used, so it reads as the empty text every time. */
  function ReadText(r: Response, consumed: bool, e: Engine): (t: Result<string, string>)
    ensures consumed && !NullBodyStatus(r.status) ==> t == Failure(e.bodyUsed)
    ensures !consumed ==> t == r.text
    ensures NullBodyStatus(r.status) ==> t == Success("")
  {
    if consumed && !NullBodyStatus(r.status) then Failure(e.bodyUsed) else r.text
  }

  /** The outcome of a request raced against a deadline. */
  datatype Outcome =
    | Arrived(response: Response)   // fetch resolved before the deadline
    | Failed(message: string)       // fetch rejected (transport failure)
    | DeadlinePassed                // the AbortController fired

  function TimeoutMessage(url: string): string {
    "Zeitüberschreitung bei der Anfrage an " + url
  }

  /** `fetchWithTimeout`: an aborted request becomes an error naming the URL;
      any other failure is passed on unchanged. */
  function FetchWithTimeout(url: string, outcome: Outcome): (r: Result<Response, string>)
    ensures outcome.Arrived? <==> r.Success?
    ensures outcome.Arrived? ==> r.value == outcome.response
    ensures outcome.Failed? ==> r == Failure(outcome.message)
    ensures outcome.DeadlinePassed? ==> r.Failure? && Text.Contains(r.error, url)
  {
    match outcome
    case Arrived(response) => Success(response)
    case Failed(message) => Failure(message)
    case DeadlinePassed =>
      Text.ContainsAt(TimeoutMessage(url), url, |TimeoutMessage(url)| - |url|);
      Failure(TimeoutMessage(url))
  }
}
