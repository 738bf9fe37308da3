/**
 * The value-level rules of one request: how the factory clamps its
 * configuration, which transport call an attempt builds, and the decision
 * table the completion callback applies to a finished call.
 */
module RequestPolicy {
  import opened Wrappers
  import opened QuickHttpTypes
  import Backoff

  // ----- Factory clamping -----

  /** The timeout is raised to at least one second: the larger of 1 and the input. */
  function ClampTimeoutSeconds(t: int32): (r: int32)
    ensures r >= 1 && r >= t
    ensures r == t || r == 1
  {
    if t < 1 then 1 else t
  }

  /** A negative retry count becomes 0: the larger of 0 and the input. */
  function ClampMaxRetries(n: int32): (r: int32)
    ensures r >= 0 && r >= n
    ensures r == n || r == 0
  {
    if n < 0 then 0 else n
  }

  /** The largest accepted response size in KB (8 * 1024). */
  const MaxPayloadCeilingKB: int32 := 8 * 1024

  /** The payload limit is clamped into [1, 8192]; an in-range input is kept. */
  function ClampMaxPayloadKB(k: int32): (r: int32)
    ensures 1 <= r <= MaxPayloadCeilingKB
    ensures 1 <= k <= MaxPayloadCeilingKB ==> r == k
    ensures k < 1 ==> r == 1
    ensures k > MaxPayloadCeilingKB ==> r == MaxPayloadCeilingKB
  {
    if k < 1 then 1 else if k > MaxPayloadCeilingKB then MaxPayloadCeilingKB else k
  }

  // ----- Request construction -----

  /** What an attempt sets on the transport's request object, in call order. */
  datatype TransportCall = TransportCall(
    verb: string,
    url: string,
    headers: seq<Header>,     // the SetHeader calls, in the order they are made
    content: Option<string>)  // the body, when SetContentAsString is called

  const AcceptJson: Header := Header("Accept", "application/json")
  const ContentTypeJson: Header := Header("Content-Type", "application/json")

  /** The body is attached only when it is non-empty and the verb sent is not GET. */
  predicate AttachesBody(m: HttpMethod, body: string)
  {
    body != "" && VerbName(m) != "GET"
  }

  /** The call an attempt builds: Accept first, then the caller's headers, then the JSON body. */
  function BuildRequest(m: HttpMethod, url: string, headers: seq<Header>, body: string): (r: TransportCall)
    ensures r.verb == VerbName(m) && r.url == url
    ensures AttachesBody(m, body) <==> body != "" && m != GET
    ensures |r.headers| == 1 + |headers| + (if AttachesBody(m, body) then 1 else 0)
    ensures r.headers[0] == AcceptJson
    ensures forall i :: 0 <= i < |headers| ==> r.headers[i + 1] == headers[i]
    ensures AttachesBody(m, body) ==> r.headers[|headers| + 1] == ContentTypeJson && r.content == Some(body)
    ensures !AttachesBody(m, body) ==> r.content == None
  {
    var applied := [AcceptJson] + headers;
    if AttachesBody(m, body) then TransportCall(VerbName(m), url, applied + [ContentTypeJson], Some(body))
    else TransportCall(VerbName(m), url, applied, None)
  }

  // ----- Completion decision table -----

  /** The parts of a valid transport response the callback reads. */
  datatype HttpResponse = HttpResponse(code: int32, content: string)

  /** What the completion callback does with one finished call. */
  datatype Decision =
    | RetryAfter(multiplier: nat)
    | Succeed(body: string, status: int32)
    | Fail(status: int32, message: string, rawBody: string)

  const NetworkFailureMessage: string := "Network failure or timeout"
  const PayloadTooLargeMessage: string := "Payload too large"
  const HttpErrorMessage: string := "HTTP error"

  /** An invalid (absent) response reads as status 0. */
  function ResponseStatus(response: Option<HttpResponse>): int32
  {
    if response.Some? then response.value.code else 0
  }

  /** An invalid (absent) response reads as an empty body. */
  function ResponseBody(response: Option<HttpResponse>): string
  {
    if response.Some? then response.value.content else ""
  }

  /** The transport reported failure, or delivered no valid response. */
  predicate TransportFailed(succeeded: bool, response: Option<HttpResponse>)
  {
    !succeeded || response.None?
  }

  /** Whole kilobytes of the body (characters / 1024, rounded down) exceed the limit. */
  predicate TooLarge(body: string, maxPayloadKB: int32)
  {
    |body| / 1024 > maxPayloadKB as int
  }

  predicate Is2xx(status: int32)
  {
    200 <= status < 300
  }

  /**
   * The decision table, checked in order: transport failure, payload size,
   * HTTP status (retrying 5xx and above), success.
   */
  function Decide(succeeded: bool, response: Option<HttpResponse>,
                  attemptIndex: int32, maxRetries: int32, maxPayloadKB: int32): (d: Decision)
    // a retry: only on transport failure or a 5xx within the size limit, and only with retries left
    ensures d.RetryAfter? <==>
      attemptIndex < maxRetries &&
      (TransportFailed(succeeded, response) ||
       (!TooLarge(ResponseBody(response), maxPayloadKB) && ResponseStatus(response) >= 500))
    // the delay uses the index before it is incremented
    ensures d.RetryAfter? ==> d.multiplier == Backoff.Multiplier(attemptIndex)
    // success: exactly a delivered 2xx response within the limit, passed through unchanged
    ensures d.Succeed? <==>
      !TransportFailed(succeeded, response) && !TooLarge(ResponseBody(response), maxPayloadKB) &&
      Is2xx(ResponseStatus(response))
    ensures d.Succeed? ==> d == Succeed(response.value.content, response.value.code)
    // every failure carries the reported status and body
    ensures d.Fail? ==> d.status == ResponseStatus(response) && d.rawBody == ResponseBody(response)
    ensures d.Fail? && response.None? ==> d.status == 0 && d.rawBody == ""
    ensures d.Fail? ==> d.message in {NetworkFailureMessage, PayloadTooLargeMessage, HttpErrorMessage}
    ensures d.Fail? && d.message == NetworkFailureMessage <==>
      TransportFailed(succeeded, response) && attemptIndex >= maxRetries
    // the size check comes before the status check, whatever the status
    ensures d.Fail? && d.message == PayloadTooLargeMessage <==>
      !TransportFailed(succeeded, response) && TooLarge(ResponseBody(response), maxPayloadKB)
    ensures d.Fail? && d.message == HttpErrorMessage <==>
      !TransportFailed(succeeded, response) && !TooLarge(ResponseBody(response), maxPayloadKB) &&
      !Is2xx(ResponseStatus(response)) && !(ResponseStatus(response) >= 500 && attemptIndex < maxRetries)
  {
    var status := ResponseStatus(response);
    var body := ResponseBody(response);
    if TransportFailed(succeeded, response) then
      if attemptIndex < maxRetries then RetryAfter(Backoff.Multiplier(attemptIndex))
      else Fail(status, NetworkFailureMessage, body)
    else if TooLarge(body, maxPayloadKB) then
      Fail(status, PayloadTooLargeMessage, body)
    else if status < 200 || status >= 300 then
      if status >= 500 && attemptIndex < maxRetries then RetryAfter(Backoff.Multiplier(attemptIndex))
      else Fail(status, HttpErrorMessage, body)
    else
      Succeed(body, status)
  }

  /** A 2xx response over the size limit is reported as too large, never as a success or a retry. */
  lemma OversizedIsNeverSuccess(code: int32, content: string, attemptIndex: int32, maxRetries: int32, maxPayloadKB: int32)
    requires |content| / 1024 > maxPayloadKB as int
    ensures Decide(true, Some(HttpResponse(code, content)), attemptIndex, maxRetries, maxPayloadKB)
      == Fail(code, PayloadTooLargeMessage, content)
  {
  }

  /** A 4xx response within the limit fails at once as an HTTP error, whatever retries remain. */
  lemma ClientErrorIsNotRetried(code: int32, content: string, attemptIndex: int32, maxRetries: int32, maxPayloadKB: int32)
    requires 400 <= code < 500 && !TooLarge(content, maxPayloadKB)
    ensures Decide(true, Some(HttpResponse(code, content)), attemptIndex, maxRetries, maxPayloadKB)
      == Fail(code, HttpErrorMessage, content)
  {
  }

  /** With no retries left, a 5xx response fails as an HTTP error and a transport failure as a network failure. */
  lemma ExhaustedRetriesFail(code: int32, content: string, attemptIndex: int32, maxRetries: int32, maxPayloadKB: int32)
    requires attemptIndex >= maxRetries && code >= 500 && !TooLarge(content, maxPayloadKB)
    ensures Decide(true, Some(HttpResponse(code, content)), attemptIndex, maxRetries, maxPayloadKB)
      == Fail(code, HttpErrorMessage, content)
    ensures Decide(false, None, attemptIndex, maxRetries, maxPayloadKB) == Fail(0, NetworkFailureMessage, "")
  {
  }
}
