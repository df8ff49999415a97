/** One HTTP attempt of `MDSClientBase`: what the network hands back, and the
    normalised record `_build_response` (or the exception handler of
    `_request`) turns it into. The network call itself is not modelled; its
    outcome is an input. */
module Transport {
  import opened Results
  import opened Payloads

  /** What `response.json()` yields: a payload, or a parse failure with the
      exception's text. */
  datatype Body = Parsed(payload: Payload) | Unparseable(reason: string)

  /** A `requests` response; `statusCode` and `content` are `None` when the
      object lacks the attribute. */
  datatype RawResponse = RawResponse(statusCode: Option<int>, content: Option<string>, body: Body)

  /** What one `requests.get` call does: return a response or raise. */
  datatype TransportOutcome = Responded(raw: RawResponse) | Raised(reason: string)

  /** The dictionary `{status_code, response, message, payload}`. */
  datatype Record = Record(statusCode: int, response: string, message: string, payload: Payload)

  const NoMessage := "No response message provided."

  predicate IsSuccess(r: Record) {
    r.response == "success"
  }

  /** The classification every record obeys: success exactly on status 200,
      and an empty payload on every error. */
  predicate WellFormed(r: Record) {
    && (r.response == "success" || r.response == "error")
    && (IsSuccess(r) <==> r.statusCode == 200)
    && (!IsSuccess(r) ==> r.payload == EmptyPayload)
  }

  /** `_build_response`. It fails only where `response.json()` raises, which
      happens only for a 200 response whose body does not parse. */
  function BuildResponse(raw: RawResponse): (r: Result<Record>)
    ensures r.Err? <==> raw.statusCode == Some(200) && raw.body.Unparseable?
    ensures r.Err? ==> r.error == InvalidJson(raw.body.reason)
    ensures r.Ok? ==> WellFormed(r.value)
    ensures r.Ok? ==> r.value.statusCode == raw.statusCode.GetOr(-1)
    ensures r.Ok? && IsSuccess(r.value) ==>
              r.value.message == "success" && r.value.payload == raw.body.payload
    ensures r.Ok? && !IsSuccess(r.value) ==>
              r.value.message == "Error: " + raw.content.GetOr(NoMessage)
  {
    var status := raw.statusCode.GetOr(-1);
    var success := status == 200;
    var message := raw.content.GetOr(NoMessage);
    if !success then
      Ok(Record(status, "error", "Error: " + message, EmptyPayload))
    else
      match raw.body
      case Parsed(p) => Ok(Record(status, "success", "success", p))
      case Unparseable(reason) => Err(InvalidJson(reason))
  }

  /** The record `_request` builds when the request (or the parse) raises. */
  function ExceptionRecord(reason: string): (r: Record)
    ensures WellFormed(r) && !IsSuccess(r)
    ensures r.statusCode == -1 && r.message == "Error: " + reason
  {
    Record(-1, "error", "Error: " + reason, EmptyPayload)
  }

  /** The body of `_request`'s `try`/`except`: one attempt never raises. */
  function Attempt(o: TransportOutcome): (r: Record)
    ensures WellFormed(r)
    ensures o.Raised? ==> r == ExceptionRecord(o.reason)
    ensures IsSuccess(r) <==> o.Responded? && o.raw.statusCode == Some(200) && o.raw.body.Parsed?
    ensures IsSuccess(r) ==> r.payload == o.raw.body.payload
  {
    match o
    case Raised(reason) => ExceptionRecord(reason)
    case Responded(raw) =>
      match BuildResponse(raw)
      case Ok(rec) => rec
      case Err(e) => ExceptionRecord(e.reason)
  }
}
