/**
 * The Reader API client (lib/reader.js): a session-bound client whose every call
 * passes the reader-credentials gate, is signed with consumer and session
 * credentials, and has its response reshaped per operation.
 */
module ReaderApi {
  import opened Wrappers
  import opened Js
  import opened Errors
  import opened Config
  import opened Http
  import Text

  const BasePath := "/rest/v1"

  /** An OAuth access token and secret (lib/session.js). */
  datatype Session = Session(accessToken: string, accessTokenSecret: string)

  /** The constructor's `options` argument; absent fields are `None`. */
  datatype ReaderOptions = ReaderOptions(accessToken: Option<string>, accessTokenSecret: Option<string>)

  /** A constructed client; its session is set once, by the constructor, and never changed. */
  datatype Reader = Reader(session: Session)

  /** `validateOptions`: options given, with a truthy token and a truthy token secret. */
  predicate ValidateOptions(options: Option<ReaderOptions>) {
    options.Some? && Present(options.value.accessToken) && Present(options.value.accessTokenSecret)
  }

  /** `new Reader(options)`: throws unless both session values are non-empty, else keeps exactly them. */
  function NewReader(options: Option<ReaderOptions>): (r: Result<Reader, ApiError>)
    ensures r.Success? <==> options.Some? && options.value.accessToken.Some? && options.value.accessToken.value != ""
                            && options.value.accessTokenSecret.Some? && options.value.accessTokenSecret.value != ""
    ensures r.Success? ==> r.value.session.accessToken == options.value.accessToken.value
                           && r.value.session.accessTokenSecret == options.value.accessTokenSecret.value
    ensures r.Failure? ==> r.error == InvalidSession
  {
    if ValidateOptions(options)
    then Success(Reader(Session(options.value.accessToken.value, options.value.accessTokenSecret.value)))
    else Failure(InvalidSession)
  }

  /**
   * The single request `request` hands to the pipeline: BaseUrl + BasePath + path,
   * signed with the configured consumer pair and the session's token pair.
   */
  predicate SignedRequest(q: HttpRequest, conf: Settings, reader: Reader, verb: Method, path: string,
                          qs: Option<map<string, JsValue>>, form: Option<map<string, JsValue>>)
    requires HasReaderCredentials(conf)
  {
    && q.verb == verb
    && q.uri == BaseUrl + BasePath + path
    && q.json
    && q.options.qs == qs
    && q.options.form == form
    && q.options.oauth == Some(OAuth(conf.consumerKey.value, conf.consumerSecret.value,
                                     Some(reader.session.accessToken), Some(reader.session.accessTokenSecret)))
  }

  /** Without reader credentials nothing is sent and the consumer-keys error comes back; with them, one signed request. */
  predicate Gated<T>(r: Reply<T>, conf: Settings, reader: Reader, verb: Method, path: string,
                     qs: Option<map<string, JsValue>>, form: Option<map<string, JsValue>>)
  {
    if HasReaderCredentials(conf)
    then |r.sent| == 1 && SignedRequest(r.sent[0], conf, reader, verb, path, qs, form)
    else r == Call([], Failure(ReaderConsumerKeys))
  }

  /** Once the request was sent, a failed exchange reaches the caller as the pipeline's error, unchanged. */
  predicate RelaysErrors<T>(r: Reply<T>, conf: Settings, o: Outcome) {
    HasReaderCredentials(conf) && !PassesThrough(o) ==> r.result == Failure(HandleHttpResponse(o).error)
  }

  /** Errors are relayed and a passed-through response delivers its body untouched. */
  predicate RelaysBody(r: Reply<JsValue>, conf: Settings, o: Outcome) {
    && RelaysErrors(r, conf, o)
    && (HasReaderCredentials(conf) && PassesThrough(o) ==> r.result == Success(o.response.body))
  }

  /** `Reader.prototype.request`: the reader gate, then the pipeline with the OAuth credentials added to the options. */
  function Request(conf: Settings, reader: Reader, verb: Method, path: string, options: Options, o: Outcome): (r: Reply<Response>)
    ensures Gated(r, conf, reader, verb, path, options.qs, options.form)
    ensures HasReaderCredentials(conf) ==> r.result == HandleHttpResponse(o)
  {
    if !HasReaderCredentials(conf) then Call([], Failure(ReaderConsumerKeys))
    else
      var oauth := OAuth(conf.consumerKey.value, conf.consumerSecret.value,
                         Some(reader.session.accessToken), Some(reader.session.accessTokenSecret));
      assert BaseUrl + (BasePath + path) == BaseUrl + BasePath + path;
      Http.Request(verb, BasePath + path, options.(oauth := Some(oauth)), o)
  }

  /** The callback shape `cb(err, body)`. */
  function BodyOf(c: Reply<Response>): Reply<JsValue>
  {
    Call(c.sent, match c.result
                 case Success(res) => Success(res.body)
                 case Failure(e) => Failure(e))
  }

  /** `user`: GET /users/_current. */
  function User(conf: Settings, reader: Reader, o: Outcome): (r: Reply<JsValue>)
    ensures Gated(r, conf, reader, GET, "/users/_current", None, None)
    ensures RelaysBody(r, conf, o)
  {
    BodyOf(Request(conf, reader, GET, "/users/_current", NoOptions, o))
  }

  /**
   * What the bookmarks list delivers for a passed-through body: no body throws; an object
   * comes back without its `conditions` key and with every other key and value as it was.
   */
  predicate WithoutConditions(body: JsValue, result: Result<JsValue, ApiError>) {
    if Nullish(body) then result == Failure(Thrown(DeleteOnNullishBody))
    else if body.Obj? then
      && result.Success? && result.value.Obj?
      && result.value.props.Keys == body.props.Keys - {"conditions"}
      && forall k | k in result.value.props :: result.value.props[k] == body.props[k]
    else result == Success(body)
  }

  /**
   * `bookmarks(options)` as written: the callback deletes `body.conditions` before looking at `err`,
   * and on every error `body` is undefined, so every error that reaches it turns into a TypeError.
   * An error status with no body already throws inside the response handler, before the callback.
   */
  function BookmarksAsWritten(conf: Settings, reader: Reader, query: map<string, JsValue>, o: Outcome): (r: Reply<JsValue>)
    ensures !HasReaderCredentials(conf) ==> r == Call([], Failure(Thrown(DeleteOnNullishBody)))
    ensures HasReaderCredentials(conf) ==> |r.sent| == 1 && SignedRequest(r.sent[0], conf, reader, GET, "/bookmarks", Some(query), None)
    ensures HasReaderCredentials(conf) && !PassesThrough(o) ==>
      r.result == Failure(Thrown(if o.Responded? && Nullish(o.response.body) then MessagesOfNullishBody
                                 else DeleteOnNullishBody))
    ensures HasReaderCredentials(conf) && PassesThrough(o) ==> WithoutConditions(o.response.body, r.result)
  {
    var c := Request(conf, reader, GET, "/bookmarks", Options(None, Some(query), None), o);
    Call(c.sent, match c.result
                 case Failure(e) => if e.Thrown? then Failure(e) else Failure(Thrown(DeleteOnNullishBody))
                 case Success(res) =>
                   if Nullish(res.body) then Failure(Thrown(DeleteOnNullishBody))
                   else Success(Delete(res.body, "conditions")))
  }

  /** `bookmarks(options)` as evidently intended: errors reach the callback; a body loses only `conditions`. */
  function Bookmarks(conf: Settings, reader: Reader, query: map<string, JsValue>, o: Outcome): (r: Reply<JsValue>)
    ensures Gated(r, conf, reader, GET, "/bookmarks", Some(query), None)
    ensures RelaysErrors(r, conf, o)
    ensures HasReaderCredentials(conf) && PassesThrough(o) ==> WithoutConditions(o.response.body, r.result)
  {
    var c := Request(conf, reader, GET, "/bookmarks", Options(None, Some(query), None), o);
    Call(c.sent, match c.result
                 case Failure(e) => Failure(e)
                 case Success(res) =>
                   if Nullish(res.body) then Failure(Thrown(DeleteOnNullishBody))
                   else Success(Delete(res.body, "conditions")))
  }

  /**
   * Every failing exchange of the bookmarks list throws as written; wherever the corrected
   * list reports a real error, the code as written replaces it by the TypeError of the delete.
   */
  lemma BookmarksAsWrittenHidesErrors(conf: Settings, reader: Reader, query: map<string, JsValue>, o: Outcome)
    requires !HasReaderCredentials(conf) || !PassesThrough(o)
    ensures BookmarksAsWritten(conf, reader, query, o).result.Failure?
    ensures BookmarksAsWritten(conf, reader, query, o).result.error.Thrown?
    ensures Bookmarks(conf, reader, query, o).result.Failure?
    ensures Bookmarks(conf, reader, query, o).result.error != Thrown(DeleteOnNullishBody)
    ensures !Bookmarks(conf, reader, query, o).result.error.Thrown? ==>
              BookmarksAsWritten(conf, reader, query, o).result == Failure(Thrown(DeleteOnNullishBody))
  {
  }

  /** `bookmark(id)`: GET /bookmarks/<id>. */
  function Bookmark(conf: Settings, reader: Reader, id: string, o: Outcome): (r: Reply<JsValue>)
    ensures Gated(r, conf, reader, GET, "/bookmarks/" + id, None, None)
    ensures RelaysBody(r, conf, o)
  {
    BodyOf(Request(conf, reader, GET, "/bookmarks/" + id, NoOptions, o))
  }

  /** The last `n` characters of `s` are digits and the one before them, if any, is not. */
  function TrailingDigitCount(s: string): (n: nat)
    ensures n <= |s|
    ensures forall i | |s| - n <= i < |s| :: Text.IsDigit(s[i])
    ensures n < |s| ==> !Text.IsDigit(s[|s| - n - 1])
  {
    if s == [] || !Text.IsDigit(s[|s| - 1]) then 0 else TrailingDigitCount(s[..|s| - 1]) + 1
  }

  /** What `/bookmarks\/(\d*)$/` accepts with `id` as its capture: `bookmarks/` then only digits to the end. */
  ghost predicate LocationMatches(location: string, id: string) {
    && |location| >= |id| + 10
    && location[|location| - |id|..] == id
    && location[|location| - |id| - 10..|location| - |id|] == "bookmarks/"
    && Text.AllDigits(id)
  }

  /** The capture of `/bookmarks\/(\d*)$/` in a Location header, if it matches. */
  function MatchBookmarkId(location: string): Option<string>
  {
    var n := TrailingDigitCount(location);
    var head := location[..|location| - n];
    if |head| >= 10 && head[|head| - 10..] == "bookmarks/" then Some(location[|location| - n..]) else None
  }

  /** The matcher agrees with the pattern exactly: it returns `id` precisely when the pattern captures `id`. */
  lemma MatchBookmarkIdIsPattern(location: string, id: string)
    ensures MatchBookmarkId(location) == Some(id) <==> LocationMatches(location, id)
  {
    var n := TrailingDigitCount(location);
    if LocationMatches(location, id) {
      var m := |location| - |id|;
      assert location[m - 1] == "bookmarks/"[9] == '/';
      assert forall i | m <= i < |location| :: location[i] == id[i - m];
      assert n == |id|;
      assert location[..m][m - 10..] == location[m - 10..m];
    }
    if MatchBookmarkId(location) == Some(id) {
      assert |id| == n;
      assert forall i | 0 <= i < |id| :: id[i] == location[|location| - n + i];
    }
  }

  /** A Location header fails to match exactly when no id fits the pattern. */
  lemma MatchBookmarkIdNone(location: string)
    ensures MatchBookmarkId(location).None? <==> forall id :: !LocationMatches(location, id)
  {
    forall id ensures LocationMatches(location, id) ==> MatchBookmarkId(location) == Some(id) {
      MatchBookmarkIdIsPattern(location, id);
    }
    if MatchBookmarkId(location).Some? {
      MatchBookmarkIdIsPattern(location, MatchBookmarkId(location).value);
    }
  }

  /**
   * `addBookmark(url)`: POST /bookmarks; any non-error status (202 created, 409 duplicate) is success,
   * the id is taken from the Location header and a second request fetches that bookmark.
   */
  function AddBookmark(conf: Settings, reader: Reader, url: string, created: Outcome, fetched: Outcome): (r: Reply<JsValue>)
    ensures !HasReaderCredentials(conf) ==> r == Call([], Failure(ReaderConsumerKeys))
    ensures HasReaderCredentials(conf) ==>
      && 1 <= |r.sent| <= 2
      && SignedRequest(r.sent[0], conf, reader, POST, "/bookmarks", None, Some(map["url" := Str(url)]))
    ensures HasReaderCredentials(conf) && !PassesThrough(created) ==>
      r == Call([r.sent[0]], Failure(HandleHttpResponse(created).error))
    ensures HasReaderCredentials(conf) && PassesThrough(created) ==>
      var headers := created.response.headers;
      if "location" !in headers then r == Call([r.sent[0]], Failure(Thrown(NoLocationHeader)))
      else if MatchBookmarkId(headers["location"]).None? then r == Call([r.sent[0]], Failure(Thrown(LocationMismatch)))
      else
        && |r.sent| == 2
        && SignedRequest(r.sent[1], conf, reader, GET, "/bookmarks/" + MatchBookmarkId(headers["location"]).value, None, None)
        && r.result == (if PassesThrough(fetched) then Success(fetched.response.body)
                        else Failure(HandleHttpResponse(fetched).error))
  {
    var c := Request(conf, reader, POST, "/bookmarks", Options(None, None, Some(map["url" := Str(url)])), created);
    match c.result
    case Failure(e) => Call(c.sent, Failure(e))
    case Success(res) =>
      if "location" !in res.headers then Call(c.sent, Failure(Thrown(NoLocationHeader)))
      else
        match MatchBookmarkId(res.headers["location"])
        case None => Call(c.sent, Failure(Thrown(LocationMismatch)))
        case Some(id) =>
          var b := Bookmark(conf, reader, id, fetched);
          Call(c.sent + b.sent, b.result)
  }

  /** A Location ending in bookmarks/<digits> leads to a fetch of exactly /bookmarks/<digits>, whatever the non-error status. */
  lemma {:induction false} AddBookmarkFollowsLocation(conf: Settings, reader: Reader, url: string, status: nat,
                                                     headers: map<string, string>, body: JsValue,
                                                     prefix: string, id: string, fetched: Outcome)
    requires HasReaderCredentials(conf)
    requires status !in ErrorCodes && Text.AllDigits(id)
    requires "location" in headers && headers["location"] == prefix + "bookmarks/" + id
    ensures var r := AddBookmark(conf, reader, url, Responded(Response(status, headers, body)), fetched);
            && |r.sent| == 2
            && r.sent[1].verb == GET
            && r.sent[1].uri == BaseUrl + BasePath + "/bookmarks/" + id
            && (PassesThrough(fetched) ==> r.result == Success(fetched.response.body))
  {
    var location := prefix + "bookmarks/" + id;
    var m := |location| - |id|;
    assert location[m..] == id;
    assert location[m - 10..m] == "bookmarks/";
    MatchBookmarkIdIsPattern(location, id);
    assert BaseUrl + BasePath + ("/bookmarks/" + id) == BaseUrl + BasePath + "/bookmarks/" + id;
  }

  /** `updateBookmark(id, fields)`: POST /bookmarks/<id> with the fields as the form. */
  function UpdateBookmark(conf: Settings, reader: Reader, id: string, fields: map<string, JsValue>, o: Outcome): (r: Reply<JsValue>)
    ensures Gated(r, conf, reader, POST, "/bookmarks/" + id, None, Some(fields))
    ensures RelaysBody(r, conf, o)
  {
    BodyOf(Request(conf, reader, POST, "/bookmarks/" + id, Options(None, None, Some(fields)), o))
  }

  /** `removeBookmark(id)`: DELETE /bookmarks/<id>; `true` on success, otherwise only the error. */
  function RemoveBookmark(conf: Settings, reader: Reader, id: string, o: Outcome): (r: Reply<bool>)
    ensures Gated(r, conf, reader, DELETE, "/bookmarks/" + id, None, None)
    ensures RelaysErrors(r, conf, o)
    ensures r.result.Success? ==> r.result.value
    ensures r.result.Success? <==> HasReaderCredentials(conf) && PassesThrough(o)
  {
    var c := Request(conf, reader, DELETE, "/bookmarks/" + id, NoOptions, o);
    Call(c.sent, match c.result
                 case Failure(e) => Failure(e)
                 case Success(_) => Success(true))
  }

  /** `archiveBookmark(id)`: the update with form {archive: 1}. */
  function ArchiveBookmark(conf: Settings, reader: Reader, id: string, o: Outcome): (r: Reply<JsValue>)
    ensures Gated(r, conf, reader, POST, "/bookmarks/" + id, None, Some(map["archive" := Num("1")]))
    ensures RelaysBody(r, conf, o)
  {
    UpdateBookmark(conf, reader, id, map["archive" := Num("1")], o)
  }

  /** `unarchiveBookmark(id)`: the update with form {archive: 0}. */
  function UnarchiveBookmark(conf: Settings, reader: Reader, id: string, o: Outcome): (r: Reply<JsValue>)
    ensures Gated(r, conf, reader, POST, "/bookmarks/" + id, None, Some(map["archive" := Num("0")]))
    ensures RelaysBody(r, conf, o)
  {
    UpdateBookmark(conf, reader, id, map["archive" := Num("0")], o)
  }

  /** `favouriteBookmark(id)`: the update with form {favorite: 1}. */
  function FavouriteBookmark(conf: Settings, reader: Reader, id: string, o: Outcome): (r: Reply<JsValue>)
    ensures Gated(r, conf, reader, POST, "/bookmarks/" + id, None, Some(map["favorite" := Num("1")]))
    ensures RelaysBody(r, conf, o)
  {
    UpdateBookmark(conf, reader, id, map["favorite" := Num("1")], o)
  }

  /** `unfavouriteBookmark(id)`: the update with form {favorite: 0}. */
  function UnfavouriteBookmark(conf: Settings, reader: Reader, id: string, o: Outcome): (r: Reply<JsValue>)
    ensures Gated(r, conf, reader, POST, "/bookmarks/" + id, None, Some(map["favorite" := Num("0")]))
    ensures RelaysBody(r, conf, o)
  {
    UpdateBookmark(conf, reader, id, map["favorite" := Num("0")], o)
  }

  /** `favoriteBookmark`: the other spelling of `favouriteBookmark`. */
  function FavoriteBookmark(conf: Settings, reader: Reader, id: string, o: Outcome): (r: Reply<JsValue>)
    ensures Gated(r, conf, reader, POST, "/bookmarks/" + id, None, Some(map["favorite" := Num("1")]))
    ensures RelaysBody(r, conf, o)
  {
    FavouriteBookmark(conf, reader, id, o)
  }

  /** `unfavoriteBookmark`: the other spelling of `unfavouriteBookmark`. */
  function UnfavoriteBookmark(conf: Settings, reader: Reader, id: string, o: Outcome): (r: Reply<JsValue>)
    ensures Gated(r, conf, reader, POST, "/bookmarks/" + id, None, Some(map["favorite" := Num("0")]))
    ensures RelaysBody(r, conf, o)
  {
    UnfavouriteBookmark(conf, reader, id, o)
  }

  /** Archiving and unarchiving send the same request but for the `archive` value, 1 against 0. */
  lemma ArchiveThenUnarchive(conf: Settings, reader: Reader, id: string, o1: Outcome, o2: Outcome)
    requires HasReaderCredentials(conf)
    ensures var a, u := ArchiveBookmark(conf, reader, id, o1).sent[0], UnarchiveBookmark(conf, reader, id, o2).sent[0];
            && a.uri == u.uri && a.verb == u.verb && a.options.oauth == u.options.oauth
            && a.options.form == Some(map["archive" := Num("1")])
            && u.options.form == Some(map["archive" := Num("0")])
  {
  }

  /** `tags`-style unwrapping: `body ? body.tags : null`. */
  predicate UnwrapsTags(body: JsValue, result: Result<JsValue, ApiError>) {
    if !Truthy(body) then result == Success(Null)
    else if body.Obj? && "tags" in body.props then result == Success(body.props["tags"])
    else result == Success(Undefined)
  }

  /** The callback shape `cb(err, body ? body.tags : null)`. */
  function TagsOf(c: Reply<Response>): Reply<JsValue>
  {
    Call(c.sent, match c.result
                 case Failure(e) => Failure(e)
                 case Success(res) => Success(if Truthy(res.body) then Get(res.body, "tags") else Null))
  }

  /** `userTags()`: GET /tags, unwrapping `tags`. */
  function UserTags(conf: Settings, reader: Reader, o: Outcome): (r: Reply<JsValue>)
    ensures Gated(r, conf, reader, GET, "/tags", None, None)
    ensures RelaysErrors(r, conf, o)
    ensures HasReaderCredentials(conf) && PassesThrough(o) ==> UnwrapsTags(o.response.body, r.result)
  {
    TagsOf(Request(conf, reader, GET, "/tags", NoOptions, o))
  }

  /** `tags(id)`: GET /bookmarks/<id>/tags, unwrapping `tags`. */
  function Tags(conf: Settings, reader: Reader, id: string, o: Outcome): (r: Reply<JsValue>)
    ensures Gated(r, conf, reader, GET, "/bookmarks/" + id + "/tags", None, None)
    ensures RelaysErrors(r, conf, o)
    ensures HasReaderCredentials(conf) && PassesThrough(o) ==> UnwrapsTags(o.response.body, r.result)
  {
    TagsOf(Request(conf, reader, GET, "/bookmarks/" + id + "/tags", NoOptions, o))
  }

  /** `addTags(id, names)`: POST /bookmarks/<id>/tags with the names joined by commas, unwrapping `tags`. */
  function AddTags(conf: Settings, reader: Reader, id: string, names: seq<string>, o: Outcome): (r: Reply<JsValue>)
    ensures Gated(r, conf, reader, POST, "/bookmarks/" + id + "/tags", None, Some(map["tags" := Str(Text.Join(names, ","))]))
    ensures RelaysErrors(r, conf, o)
    ensures HasReaderCredentials(conf) && PassesThrough(o) ==> UnwrapsTags(o.response.body, r.result)
  {
    TagsOf(Request(conf, reader, POST, "/bookmarks/" + id + "/tags",
                   Options(None, None, Some(map["tags" := Str(Text.Join(names, ","))])), o))
  }

  /** The provider can split the `tags` form field back into exactly the names given, when none contains a comma. */
  lemma AddTagsSendsNames(conf: Settings, reader: Reader, id: string, names: seq<string>, o: Outcome)
    requires HasReaderCredentials(conf)
    requires |names| >= 1 && forall i | 0 <= i < |names| :: ',' !in names[i]
    ensures var form := AddTags(conf, reader, id, names, o).sent[0].options.form;
            form.Some? && "tags" in form.value && form.value["tags"].Str?
            && Text.Split(form.value["tags"].s, ',') == names
  {
    Text.SplitJoin(names, ',');
  }

  /** `removeTag(bookmarkId, tagId)`: DELETE /bookmarks/<bookmarkId>/tags/<tagId>; `true` on success. */
  function RemoveTag(conf: Settings, reader: Reader, bookmarkId: string, tagId: string, o: Outcome): (r: Reply<bool>)
    ensures Gated(r, conf, reader, DELETE, "/bookmarks/" + bookmarkId + "/tags/" + tagId, None, None)
    ensures RelaysErrors(r, conf, o)
    ensures r.result.Success? ==> r.result.value
    ensures r.result.Success? <==> HasReaderCredentials(conf) && PassesThrough(o)
  {
    var c := Request(conf, reader, DELETE, "/bookmarks/" + bookmarkId + "/tags/" + tagId, NoOptions, o);
    Call(c.sent, match c.result
                 case Failure(e) => Failure(e)
                 case Success(_) => Success(true))
  }

  /** `article(id)`: GET /articles/<id>. */
  function Article(conf: Settings, reader: Reader, id: string, o: Outcome): (r: Reply<JsValue>)
    ensures Gated(r, conf, reader, GET, "/articles/" + id, None, None)
    ensures RelaysBody(r, conf, o)
  {
    BodyOf(Request(conf, reader, GET, "/articles/" + id, NoOptions, o))
  }
}
