/**
 * The Parser API client (lib/parser.js): no OAuth; every request is a GET that
 * carries the configured parser token in its query string.
 */
module ParserApi {
  import opened Wrappers
  import opened Js
  import opened Errors
  import opened Config
  import opened Http

  const BasePath := "/content/v1"

  /**
   * `Parser.prototype.request` as written: its first step calls `config.containsParserToken`,
   * which lib/config.js does not export, so it throws before anything is sent, whatever the configuration.
   */
  function RequestAsWritten(conf: Settings, verb: Method, path: string, options: map<string, JsValue>, o: Outcome): (r: Reply<Response>)
    ensures r.sent == [] && r.result.Failure? && r.result.error.Thrown?
  {
    Call([], Failure(Thrown(ParserGateUndefined)))
  }

  /** The query sent: the caller's keys, plus `token` set to the parser token over any `token` of the caller's. */
  predicate TokenQuery(qs: map<string, JsValue>, options: map<string, JsValue>, token: string) {
    && qs.Keys == options.Keys + {"token"}
    && qs["token"] == Str(token)
    && forall k | k in options && k != "token" :: qs[k] == options[k]
  }

  /** One unsigned GET to BaseUrl + BasePath + path whose query is the caller's options with the token forced in. */
  predicate ParserRequest(q: HttpRequest, conf: Settings, path: string, options: map<string, JsValue>)
    requires HasParserToken(conf)
  {
    && q.verb == GET
    && q.uri == BaseUrl + BasePath + path
    && q.json
    && q.options.oauth.None?
    && q.options.form.None?
    && q.options.qs.Some?
    && TokenQuery(q.options.qs.value, options, conf.parserToken.value)
  }

  /**
   * `Parser.prototype.request` with the gate it evidently means: without a parser token nothing is sent;
   * with one, a GET whatever `verb` was asked for.
   */
  function Request(conf: Settings, verb: Method, path: string, options: map<string, JsValue>, o: Outcome): (r: Reply<Response>)
    ensures !HasParserToken(conf) ==> r == Call([], Failure(ParserTokenMissing))
    ensures HasParserToken(conf) ==>
      && |r.sent| == 1
      && ParserRequest(r.sent[0], conf, path, options)
      && r.result == HandleHttpResponse(o)
  {
    if !HasParserToken(conf) then Call([], Failure(ParserTokenMissing))
    else
      assert BaseUrl + (BasePath + path) == BaseUrl + BasePath + path;
      Http.Request(GET, BasePath + path, Options(None, Some(options["token" := Str(conf.parserToken.value)]), None), o)
  }

  /** The method argument makes no difference. */
  lemma RequestIgnoresVerb(conf: Settings, v1: Method, v2: Method, path: string, options: map<string, JsValue>, o: Outcome)
    ensures Request(conf, v1, path, options, o) == Request(conf, v2, path, options, o)
  {
  }

  /** As written the client never reaches the network, even fully configured; with the intended gate it does. */
  lemma ParserAsWrittenAlwaysThrows(url: string, o: Outcome)
    ensures var conf := Settings(Some("some_consumer_key"), Some("some_consumer_secret"), Some("some_parser_token"));
            && RequestAsWritten(conf, GET, "/parser", map["url" := Str(url)], o).sent == []
            && RequestAsWritten(conf, GET, "/parser", map["url" := Str(url)], o).result == Failure(Thrown(ParserGateUndefined))
            && |Request(conf, GET, "/parser", map["url" := Str(url)], o).sent| == 1
  {
  }

  /** `parse(url)`: GET /parser?url=…; the body comes back unchanged. */
  function Parse(conf: Settings, url: string, o: Outcome): (r: Reply<JsValue>)
    ensures !HasParserToken(conf) ==> r == Call([], Failure(ParserTokenMissing))
    ensures HasParserToken(conf) ==> |r.sent| == 1 && ParserRequest(r.sent[0], conf, "/parser", map["url" := Str(url)])
    ensures HasParserToken(conf) && !PassesThrough(o) ==> r.result == Failure(HandleHttpResponse(o).error)
    ensures HasParserToken(conf) && PassesThrough(o) ==> r.result == Success(o.response.body)
  {
    var c := Request(conf, GET, "/parser", map["url" := Str(url)], o);
    Call(c.sent, match c.result
                 case Failure(e) => Failure(e)
                 case Success(res) => Success(res.body))
  }

  /** `confidence(url)`: GET /confidence?url=…; delivers `body.confidence`, or null without a body. */
  function Confidence(conf: Settings, url: string, o: Outcome): (r: Reply<JsValue>)
    ensures !HasParserToken(conf) ==> r == Call([], Failure(ParserTokenMissing))
    ensures HasParserToken(conf) ==> |r.sent| == 1 && ParserRequest(r.sent[0], conf, "/confidence", map["url" := Str(url)])
    ensures HasParserToken(conf) && !PassesThrough(o) ==> r.result == Failure(HandleHttpResponse(o).error)
    ensures HasParserToken(conf) && PassesThrough(o) ==>
      var body := o.response.body;
      if !Truthy(body) then r.result == Success(Null)
      else if body.Obj? && "confidence" in body.props then r.result == Success(body.props["confidence"])
      else r.result == Success(Undefined)
  {
    var c := Request(conf, GET, "/confidence", map["url" := Str(url)], o);
    Call(c.sent, match c.result
                 case Failure(e) => Failure(e)
                 case Success(res) => Success(if Truthy(res.body) then Get(res.body, "confidence") else Null))
  }
}
