/** Errors, the three exception filters, and the failure snapshot kept for a replay. */
module Failures {
  import opened Prelude

  const COMMON_BAD_REQUEST := 90001
  const COMMON_UNAUTHORIZED := 90002
  const COMMON_NOT_FOUND := 90003
  const COMMON_NOT_ACCEPTABLE := 90004
  const COMMON_CONFLICT := 90005
  const COMMON_INTERNAL_ERROR := 90006
  const COMMON_SERVICE_UNAVAILABLE := 90007
  const COMMON_TOO_MANY_REQUESTS := 90008
  const IDEMPOTENCY_IN_PROGRESS := 90009

  /** What `HttpException.getResponse()` may hold. */
  datatype HttpBody =
    | Text(text: string)
    | WithMessage(message: string)
    | WithMessages(messages: seq<string>)
    | WithoutMessage

  /** Everything a handler can throw: a domain exception, a framework exception, or
      any other error. */
  datatype Error =
    | DomainError(errorCode: int, message: string)
    | HttpError(status: int, response: HttpBody)
    | OtherError(text: string)

  /** The body of a failure response. */
  datatype Failure = Failure(code: int, message: string)

  function HttpStatusToErrorCode(status: int): Option<int> {
    match status
    case 400 => Some(COMMON_BAD_REQUEST)
    case 401 => Some(COMMON_UNAUTHORIZED)
    case 404 => Some(COMMON_NOT_FOUND)
    case 406 => Some(COMMON_NOT_ACCEPTABLE)
    case 409 => Some(COMMON_CONFLICT)
    case 429 => Some(COMMON_TOO_MANY_REQUESTS)
    case 500 => Some(COMMON_INTERNAL_ERROR)
    case 503 => Some(COMMON_SERVICE_UNAVAILABLE)
    case _ => None
  }

  function Join(parts: seq<string>): string {
    if parts == [] then ""
    else if |parts| == 1 then parts[0]
    else parts[0] + ", " + Join(parts[1..])
  }

  function ExtractMessage(response: HttpBody): string {
    match response
    case Text(text) => text
    case WithMessage(message) => message
    case WithMessages(messages) => Join(messages)
    case WithoutMessage => ""
  }

  /** The snapshot the interceptor stores for a failed handler. */
  function ToFailure(err: Error): Failure {
    match err
    case DomainError(code, message) => Failure(code, message)
    case HttpError(status, response) =>
      var code := HttpStatusToErrorCode(status);
      Failure(if code.Some? then code.value else COMMON_INTERNAL_ERROR, ExtractMessage(response))
    case OtherError(_) => Failure(COMMON_INTERNAL_ERROR, "Internal server error")
  }

  /** The filter's own table lookup, which treats a missing and a zero code alike. */
  function MapToErrorCode(status: int): int {
    var code := HttpStatusToErrorCode(status);
    if code.None? || code.value == 0 then COMMON_INTERNAL_ERROR else code.value
  }

  /** What the filter chain sends to the client, by the kind of error. */
  function Render(err: Error): Failure {
    match err
    case DomainError(code, message) => Failure(code, message)
    case HttpError(status, response) => Failure(MapToErrorCode(status), ExtractMessage(response))
    case OtherError(_) => Failure(COMMON_INTERNAL_ERROR, "Internal Server Error!")
  }

  /** The error thrown to replay a stored failure. */
  function ReplayError(stored: Failure): Error {
    DomainError(stored.code, stored.message)
  }

  /** A replayed failure carries the live code for every error, and the live message
      for exactly the errors that are not left to the catch-all filter. */
  lemma ReplayRendersLikeLive(err: Error)
    ensures Render(ReplayError(ToFailure(err))).code == Render(err).code
    ensures Render(ReplayError(ToFailure(err))) == Render(err) <==> !err.OtherError?
  {
    var live, stored := "Internal Server Error!", "Internal server error";
    assert live[9] == 'S' && stored[9] == 's';
  }

  /** Statuses with a code of their own, and those codes. */
  function MappedStatuses(): seq<(int, int)> {
    [(400, 90001), (401, 90002), (404, 90003), (406, 90004), (409, 90005), (429, 90008), (500, 90006), (503, 90007)]
  }

  /** What a client is told: a domain error's own code and message, the code of a mapped
      status or else the internal one, and never the text of an unexpected error. */
  lemma LiveFailures(code: int, message: string, status: int, body: HttpBody, text: string)
    ensures Render(DomainError(code, message)) == Failure(code, message)
    ensures Render(OtherError(text)) == Failure(90006, "Internal Server Error!")
    ensures forall i | 0 <= i < 8 ::
              Render(HttpError(MappedStatuses()[i].0, body)).code == MappedStatuses()[i].1
    ensures (forall i | 0 <= i < 8 :: MappedStatuses()[i].0 != status) ==>
              Render(HttpError(status, body)).code == 90006
  {
    var t := MappedStatuses();
    assert t[0] == (400, 90001) && t[1] == (401, 90002) && t[2] == (404, 90003) && t[3] == (406, 90004);
    assert t[4] == (409, 90005) && t[5] == (429, 90008) && t[6] == (500, 90006) && t[7] == (503, 90007);
  }

  /** The message of a framework exception: its text, or its messages separated by commas. */
  lemma LiveMessages(status: int, text: string, messages: seq<string>)
    ensures Render(HttpError(status, Text(text))).message == text
    ensures Render(HttpError(status, WithMessage(text))).message == text
    ensures Render(HttpError(status, WithMessages([]))).message == ""
    ensures Render(HttpError(status, WithMessages([text]))).message == text
    ensures messages != [] ==> Render(HttpError(status, WithMessages(messages + [text]))).message
                               == Render(HttpError(status, WithMessages(messages))).message + ", " + text
    ensures Render(HttpError(status, WithoutMessage)).message == ""
  {
    if messages != [] { JoinGrows(messages, text); }
  }

  lemma {:induction false} JoinGrows(parts: seq<string>, last: string)
    requires parts != []
    ensures Join(parts + [last]) == Join(parts) + ", " + last
    decreases |parts|
  {
    if |parts| > 1 {
      JoinGrows(parts[1..], last);
      assert (parts + [last])[1..] == parts[1..] + [last];
    }
  }

  /** The HTTP response object: headers set early survive the filters. */
  class Response {
    var status: int
    var headers: map<string, string>
    var body: Option<Failure>

    constructor ()
      ensures status == 200 && headers == map[] && body == None
    {
      status, headers, body := 200, map[], None;
    }

    method SetHeader(name: string, value: string)
      modifies this`headers
      ensures headers == old(headers)[name := value]
    {
      headers := headers[name := value];
    }

    method SendFailureResponse(code: int, message: string)
      modifies this`status, this`body
      ensures status == 200 && body == Some(Failure(code, message))
    {
      status := 200;
      body := Some(Failure(code, message));
    }
  }

  /** Filters are tried from the most specific; each keeps the headers already set
      and answers with status 200. */
  method Catch(err: Error, res: Response)
    modifies res`status, res`body
    ensures res.status == 200 && res.body == Some(Render(err))
  {
    match err {
      case DomainError(code, message) =>
        res.SendFailureResponse(code, message);
      case HttpError(status, response) =>
        var code := MapToErrorCode(status);
        var message := ExtractMessage(response);
        res.SendFailureResponse(code, message);
      case OtherError(_) =>
        res.SendFailureResponse(COMMON_INTERNAL_ERROR, "Internal Server Error!");
    }
  }
}
