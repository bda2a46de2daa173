/**
 * The shared request pipeline (lib/http.js): how a request is addressed, and how
 * the transport's answer is classified into an error or a response.
 */
module Http {
  import opened Wrappers
  import opened Js
  import opened Errors

  const BaseUrl := "https://www.readability.com/api"

  /** The statuses the pipeline turns into errors; every other status passes through. */
  const ErrorCodes: set<nat> := {400, 401, 403, 404, 500, 504}

  datatype Method = GET | POST | DELETE

  /** The credentials handed to the OAuth 1.0 signer; the signature itself is not modelled. */
  datatype OAuth = OAuth(consumerKey: string, consumerSecret: string, token: Option<string>, tokenSecret: Option<string>)

  /** The request options a client hands over: OAuth credentials, query string, form body. */
  datatype Options = Options(oauth: Option<OAuth>, qs: Option<map<string, JsValue>>, form: Option<map<string, JsValue>>)

  const NoOptions := Options(None, None, None)

  /** What goes to the transport: the caller's options extended with `uri`, `json` and `method`. */
  datatype HttpRequest = HttpRequest(verb: Method, uri: string, json: bool, options: Options)

  /** A response as the transport delivers it; header names are lower-case, the body already JSON-decoded where it parses. */
  datatype Response = Response(status: nat, headers: map<string, string>, body: JsValue)

  /** The transport's answer to one request, supplied to the model rather than fetched. */
  datatype Outcome = Failed(cause: string) | Responded(response: Response)

  /** The requests an operation issued, in order, and what it delivered to its callback. */
  datatype Call<R> = Call(sent: seq<HttpRequest>, result: R)

  /** A call whose callback receives either an error or a value. */
  type Reply<T> = Call<Result<T, ApiError>>

  /** The answer reaches the caller as a response: no transport error and a status outside ErrorCodes. */
  predicate PassesThrough(o: Outcome) {
    o.Responded? && o.response.status !in ErrorCodes
  }

  /** `handleHttpResponse`: a transport error is passed on, a status in ErrorCodes becomes an HTTP error. */
  function HandleHttpResponse(o: Outcome): (r: Result<Response, ApiError>)
    ensures o.Failed? ==> r == Failure(Transport(o.cause))
    ensures r.Success? <==> PassesThrough(o)
    ensures r.Success? ==> r.value == o.response
    ensures o.Responded? && o.response.status in ErrorCodes ==>
      var body := o.response.body;
      if Nullish(body) then r == Failure(Thrown(MessagesOfNullishBody))
      else if body.Obj? && "messages" in body.props && Truthy(body.props["messages"])
      then r == Failure(Http(o.response.status, MessagesJson(body.props["messages"])))
      else r == Failure(Http(o.response.status, BodyText(body)))
  {
    match o
    case Failed(cause) => Failure(Transport(cause))
    case Responded(res) =>
      if res.status in ErrorCodes then
        if Nullish(res.body) then Failure(Thrown(MessagesOfNullishBody))
        else
          var messages := Get(res.body, "messages");
          Failure(Http(res.status, if Truthy(messages) then MessagesJson(messages) else BodyText(res.body)))
      else Success(res)
  }

  /** `request(method, path, options)`: one request to BaseUrl + path with JSON decoding on. */
  function Request(verb: Method, path: string, options: Options, o: Outcome): (r: Reply<Response>)
    ensures |r.sent| == 1
    ensures r.sent[0].uri == BaseUrl + path && r.sent[0].json
    ensures r.sent[0].verb == verb && r.sent[0].options == options
    ensures r.result == HandleHttpResponse(o)
  {
    Call([HttpRequest(verb, BaseUrl + path, true, options)], HandleHttpResponse(o))
  }

  /**
   * A corollary of `HandleHttpResponse`'s contract, stated for two responses: only the status
   * decides whether a response fails, and an HTTP error carries the status it came from.
   */
  lemma StatusAloneDecidesFailure(o1: Outcome, o2: Outcome)
    requires o1.Responded? && o2.Responded? && o1.response.status == o2.response.status
    ensures HandleHttpResponse(o1).Failure? == HandleHttpResponse(o2).Failure?
    ensures HandleHttpResponse(o1).Failure? && HandleHttpResponse(o1).error.Http? ==>
              HandleHttpResponse(o1).error.code == o1.response.status
  {
  }

  /** test/auth.js:27-31: a 401 with a plain-text body reads "HTTP 401: Invalid user credentials.". */
  lemma InvalidCredentialsMessage(stringify: JsValue -> string)
    ensures var r := HandleHttpResponse(Responded(Response(401, map[], Str("Invalid user credentials."))));
            r.Failure? && !r.error.Thrown? && Message(r.error, stringify) == "HTTP 401: " + "Invalid user credentials."
  {
    var r := HandleHttpResponse(Responded(Response(401, map[], Str("Invalid user credentials."))));
    assert r == Failure(Http(401, BodyText(Str("Invalid user credentials."))));
    assert Text.NatToDecimal(401) == "401" by {
      assert Text.NatToDecimal(4) == "4";
      assert Text.NatToDecimal(40) == "40";
    }
    var text := "Invalid user credentials.";
    assert ToJsString(Str(text)) == text;
    assert Message(r.error, stringify) == HttpText(401, text);
    assert HttpText(401, text) == "HTTP " + "401" + ": " + text;
  }
}
