/** The URL Shortener API client (lib/shortener.js): no configuration gate and no OAuth. */
module ShortenerApi {
  import opened Wrappers
  import opened Js
  import opened Errors
  import opened Http

  const BasePath := "/shortener/v1"

  /** The three callback arguments of `shorten`: error, short URL, raw body. */
  datatype Shortened = Shortened(err: Option<ApiError>, shortUrl: JsValue, body: JsValue)

  /** `meta.rdd_url` when the body and its `meta` are truthy, undefined otherwise. */
  predicate ShortUrlOf(body: JsValue, shortUrl: JsValue) {
    if body.Obj? && "meta" in body.props && Truthy(body.props["meta"]) then
      var meta := body.props["meta"];
      shortUrl == if meta.Obj? && "rdd_url" in meta.props then meta.props["rdd_url"] else Undefined
    else shortUrl == Undefined
  }

  /** `shorten(url)`: always one POST /urls with form {url}; an error comes back as (err, null, null). */
  function Shorten(url: string, o: Outcome): (r: Call<Shortened>)
    ensures r.sent == [HttpRequest(POST, BaseUrl + BasePath + "/urls", true, Options(None, None, Some(map["url" := Str(url)])))]
    ensures !PassesThrough(o) ==> r.result == Shortened(Some(HandleHttpResponse(o).error), Null, Null)
    ensures PassesThrough(o) ==>
      && r.result.err.None?
      && r.result.body == o.response.body
      && ShortUrlOf(o.response.body, r.result.shortUrl)
  {
    var c := Http.Request(POST, BasePath + "/urls", Options(None, None, Some(map["url" := Str(url)])), o);
    assert BaseUrl + (BasePath + "/urls") == BaseUrl + BasePath + "/urls";
    match c.result
    case Failure(e) => Call(c.sent, Shortened(Some(e), Null, Null))
    case Success(res) =>
      var body := res.body;
      var shortUrl := if Truthy(body) && Truthy(Get(body, "meta")) then Get(Get(body, "meta"), "rdd_url") else Undefined;
      Call(c.sent, Shortened(None, shortUrl, body))
  }

  /** `url(id)`: always one GET /urls/<id>; delivers `body.meta`, and throws when there is no body. */
  function Url(id: string, o: Outcome): (r: Reply<JsValue>)
    ensures r.sent == [HttpRequest(GET, BaseUrl + BasePath + "/urls/" + id, true, NoOptions)]
    ensures !PassesThrough(o) ==> r.result == Failure(HandleHttpResponse(o).error)
    ensures PassesThrough(o) ==>
      var body := o.response.body;
      if Nullish(body) then r.result == Failure(Thrown(MetaOfNullishBody))
      else if body.Obj? && "meta" in body.props then r.result == Success(body.props["meta"])
      else r.result == Success(Undefined)
  {
    var c := Http.Request(GET, BasePath + "/urls/" + id, NoOptions, o);
    assert BaseUrl + (BasePath + "/urls/" + id) == BaseUrl + BasePath + "/urls/" + id;
    Call(c.sent, match c.result
                 case Failure(e) => Failure(e)
                 case Success(res) =>
                   if Nullish(res.body) then Failure(Thrown(MetaOfNullishBody)) else Success(Get(res.body, "meta")))
  }

  /** test/shortener.js:26-35: a 500 answer to `shorten` yields the HTTP error with null short URL and null body. */
  lemma ShortenServerError(url: string, stringify: JsValue -> string)
    ensures var r := Shorten(url, Responded(Response(500, map[], Str("There was a problem.")))).result;
            && r.err == Some(Http(500, BodyText(Str("There was a problem.")))) && r.shortUrl == Null && r.body == Null
  {
  }
}
