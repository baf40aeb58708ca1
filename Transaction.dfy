/**
 * One send as a value: the request that is issued, the outcome that
 * replaces the displayed one, the detected response type and the history
 * entry to save. The HTTP client, the JSON parser, the clock and the
 * timestamp are inputs.
 */
module Transaction {
  import opened Wrappers
  import opened Values
  import opened RequestBuilder
  import opened ContentType
  import opened History

  /** A response as the HTTP client reports it. */
  datatype HttpResponse = HttpResponse(status: int, headers: map<string, string>, data: Value)

  /**
   * What the HTTP client does with a request: resolve with a response, or
   * reject with a message and, when the server answered, its response.
   */
  datatype Transport =
    | Delivered(res: HttpResponse)
    | Rejected(message: string, response: Option<HttpResponse>)

  /** An exception that reaches the catch block; only HTTP errors carry a response. */
  datatype Thrown = Thrown(message: string, response: Option<HttpResponse>)

  /** The status shown for an error: a number, or the literal "Unknown". */
  datatype ErrorStatus = Code(code: int) | Unknown

  /** The `error` object shown after a failure. */
  datatype ErrorInfo = ErrorInfo(message: string, data: Value, status: ErrorStatus)

  /** The displayed outcome; `Empty` is the initial `null`. */
  datatype Response =
    | Empty
    | Received(data: Value, status: int, headers: map<string, string>, time: int)
    | Errored(error: ErrorInfo)

  /** The header the response type is read from. */
  const ContentTypeKey := "content-type"

  /** The fallback shown when an error carries no (truthy) response body. */
  const NoResponse := JString("No response")

  /** The TypeError thrown by `undefined.includes(...)` when the header is missing. */
  const MissingContentTypeMessage := "Cannot read properties of undefined (reading 'includes')"

  /**
   * The catch block: the message is kept; the data is the response's data
   * when there is a response and its data is truthy, else "No response";
   * the status is the response's status when there is one and it is not 0,
   * else "Unknown".
   */
  function Caught(err: Thrown): (e: ErrorInfo)
    ensures e.message == err.message
    ensures Truthy(e.data)
    ensures err.response.Some? && Truthy(err.response.value.data) ==> e.data == err.response.value.data
    ensures err.response.None? || !Truthy(err.response.value.data) ==> e.data == NoResponse
    ensures e.status == Unknown <==> err.response.None? || err.response.value.status == 0
    ensures e.status.Code? ==> err.response.Some? && e.status.code == err.response.value.status
  {
    var data := if err.response.Some? && Truthy(err.response.value.data) then err.response.value.data else NoResponse;
    var status := if err.response.Some? && err.response.value.status != 0 then Code(err.response.value.status) else Unknown;
    ErrorInfo(err.message, data, status)
  }

  /** Everything one send decides. */
  datatype Outcome = Outcome(
    issued: Option<RequestConfig>,
    response: Response,
    detected: Option<ResponseType>,
    entry: Option<HistoryEntry>)

  /**
   * One send from draft `d`: build the request (a body parse error ends the
   * send before anything is issued), issue it, show the response, classify
   * its content type (a missing header throws) and record the draft with
   * timestamp `now`. Every exception becomes an error outcome with no
   * response type and no history entry.
   */
  function Execute(d: Draft, parse: string -> Result<Value, string>, http: RequestConfig -> Transport,
                   elapsed: int, now: string): (o: Outcome)
    ensures o.issued.None? <==> d.activeTab == BodyTab && parse(d.body).Failure?
    ensures o.issued.Some? ==> BuildConfig(d, parse) == Success(o.issued.value)
    ensures o.response != Empty
    ensures o.entry.Some? <==> o.response.Received?
    ensures o.detected.Some? <==> o.response.Received?
    ensures (o.issued.Some? && http(o.issued.value).Delivered? && ContentTypeKey in http(o.issued.value).res.headers)
            ==> o.response.Received?
    ensures o.response.Received? ==>
      && o.issued.Some?
      && http(o.issued.value).Delivered?
      && var res := http(o.issued.value).res;
      && ContentTypeKey in res.headers
      && o.response == Received(res.data, res.status, res.headers, elapsed)
      && o.detected == Some(Classify(res.headers[ContentTypeKey]))
      && o.entry == Some(HistoryEntry(d.httpMethod, d.url, d.headers, d.body, now))
  {
    match BuildConfig(d, parse)
    case Failure(message) =>
      Outcome(None, Errored(Caught(Thrown(message, None))), None, None)
    case Success(config) =>
      match http(config)
      case Rejected(message, response) =>
        Outcome(Some(config), Errored(Caught(Thrown(message, response))), None, None)
      case Delivered(res) =>
        if ContentTypeKey !in res.headers then
          Outcome(Some(config), Errored(Caught(Thrown(MissingContentTypeMessage, None))), None, None)
        else
          Outcome(Some(config), Received(res.data, res.status, res.headers, elapsed),
                  Some(Classify(res.headers[ContentTypeKey])),
                  Some(HistoryEntry(d.httpMethod, d.url, d.headers, d.body, now)))
  }

  /**
   * A Body-tab draft whose text does not parse issues no request: the
   * parse error is shown with both fallbacks and nothing is recorded.
   */
  lemma BodyParseErrorIssuesNothing(d: Draft, parse: string -> Result<Value, string>, http: RequestConfig -> Transport,
                                    elapsed: int, now: string)
    requires d.activeTab == BodyTab && parse(d.body).Failure?
    ensures var o := Execute(d, parse, http, elapsed, now);
      && o.issued == None
      && o.response == Errored(ErrorInfo(parse(d.body).error, NoResponse, Unknown))
      && o.detected == None
      && o.entry == None
  {
  }

  /**
   * A delivered response without a content-type header ends in the
   * TypeError from `undefined.includes`, shown with both fallbacks; the
   * response that was briefly shown is replaced and nothing is recorded.
   */
  lemma MissingContentTypeIsError(d: Draft, parse: string -> Result<Value, string>, http: RequestConfig -> Transport,
                                  elapsed: int, now: string, config: RequestConfig, res: HttpResponse)
    requires BuildConfig(d, parse) == Success(config)
    requires http(config) == Delivered(res) && ContentTypeKey !in res.headers
    ensures var o := Execute(d, parse, http, elapsed, now);
      && o.response == Errored(ErrorInfo(MissingContentTypeMessage, NoResponse, Unknown))
      && o.detected == None
      && o.entry == None
  {
  }

  /**
   * A rejected request shows the client's message with the server's data
   * and status when it answered, and "No response" / "Unknown" when it did not.
   */
  lemma RejectionIsError(d: Draft, parse: string -> Result<Value, string>, http: RequestConfig -> Transport,
                         elapsed: int, now: string)
    requires BuildConfig(d, parse).Success?
    requires http(BuildConfig(d, parse).value).Rejected?
    ensures var t := http(BuildConfig(d, parse).value);
      var o := Execute(d, parse, http, elapsed, now);
      && o.response == Errored(Caught(Thrown(t.message, t.response)))
      && (t.response.None? ==> o.response.error == ErrorInfo(t.message, NoResponse, Unknown))
      && o.detected == None
      && o.entry == None
  {
  }

  /**
   * A GET of a JSON resource from the Params tab: the request carries no
   * query, no headers and no body, the response is shown, typed as JSON,
   * and the draft is recorded.
   */
  lemma GetJsonScenario(parse: string -> Result<Value, string>, elapsed: int, now: string)
    ensures
      var url := "https://api.example.com/items";
      var d := Draft("GET", url, "Params", [], [], "{}");
      var res := HttpResponse(200, map[ContentTypeKey := "application/json; charset=utf-8"],
                              JObject([("id", JNumber(1))]));
      var o := Execute(d, parse, _ => Delivered(res), elapsed, now);
      && o.issued == Some(RequestConfig("get", url, map[], map[], None))
      && o.response == Received(res.data, 200, res.headers, elapsed)
      && o.detected == Some(Json)
      && o.entry == Some(HistoryEntry("GET", url, [], "{}", now))
  {
    var url := "https://api.example.com/items";
    var d := Draft("GET", url, "Params", [], [], "{}");
    assert Lower("GET") == "get";
    assert OccursAt("json", "application/json; charset=utf-8", 12);
  }
}
