/**
 * XAuth (lib/auth.js): trade a username and password for an access token pair.
 * The request is signed with the consumer pair only; the form-encoded answer is
 * decoded and stripped of `oauth_callback_confirmed`.
 */
module Auth {
  import opened Wrappers
  import opened Js
  import opened Errors
  import opened Config
  import Http
  import Text

  const XAuthPath := "/rest/v1/oauth/access_token/"

  /** The key the decoded answer never keeps. */
  const CallbackConfirmed := "oauth_callback_confirmed"

  type Tokens = map<string, string>

  /** Index of the first `c` in `s`, or |s| when there is none. */
  function FirstIndex(s: string, c: char): (i: nat)
    ensures i <= |s|
    ensures forall k | 0 <= k < i :: s[k] != c
    ensures i < |s| ==> s[i] == c
  {
    if s == [] || s[0] == c then 0 else 1 + FirstIndex(s[1..], c)
  }

  /** One `key=value` piece: split at the first '='; with no '=' the value is empty. */
  function DecodePair(piece: string): (string, string)
  {
    var i := FirstIndex(piece, '=');
    (piece[..i], if i < |piece| then piece[i + 1..] else "")
  }

  /** The pieces in order, empty ones skipped, a later key overriding an earlier one. */
  function DecodePieces(pieces: seq<string>): Tokens
  {
    if pieces == [] then map[]
    else
      var m := DecodePieces(pieces[..|pieces| - 1]);
      var last := pieces[|pieces| - 1];
      if last == "" then m else m[DecodePair(last).0 := DecodePair(last).1]
  }

  /** `qs.parse(body)` for a string body, simplified: split on '&', then each piece at its first '='. */
  function FormDecode(body: string): Tokens
  {
    DecodePieces(Text.Split(body, '&'))
  }

  /** The `key=value` pieces of a list of pairs. */
  function Pieces(pairs: seq<(string, string)>): (pieces: seq<string>)
    ensures |pieces| == |pairs|
  {
    seq(|pairs|, i requires 0 <= i < |pairs| => pairs[i].0 + "=" + pairs[i].1)
  }

  /** The reference encoder: pairs as `k1=v1&k2=v2&…`. */
  function FormEncode(pairs: seq<(string, string)>): string
  {
    Text.Join(Pieces(pairs), "&")
  }

  /** The map a list of pairs denotes, a later key overriding an earlier one. */
  function PairsToMap(pairs: seq<(string, string)>): Tokens
  {
    if pairs == [] then map[] else PairsToMap(pairs[..|pairs| - 1])[pairs[|pairs| - 1].0 := pairs[|pairs| - 1].1]
  }

  /** Keys free of '&' and '=', values free of '&': what the decoder can take apart. */
  predicate Encodable(pairs: seq<(string, string)>) {
    forall i | 0 <= i < |pairs| :: '&' !in pairs[i].0 && '=' !in pairs[i].0 && '&' !in pairs[i].1
  }

  lemma DecodePairOf(key: string, value: string)
    requires '=' !in key
    ensures DecodePair(key + "=" + value) == (key, value)
  {
    var piece := key + "=" + value;
    assert piece[|key|] == '=';
    assert FirstIndex(piece, '=') == |key|;
    assert piece[..|key|] == key;
    assert piece[|key| + 1..] == value;
  }

  lemma {:induction false} DecodeAllPieces(pairs: seq<(string, string)>)
    requires Encodable(pairs)
    ensures DecodePieces(Pieces(pairs)) == PairsToMap(pairs)
    decreases |pairs|
  {
    if pairs != [] {
      var n := |pairs|;
      var init := pairs[..n - 1];
      var pieces := Pieces(pairs);
      assert Encodable(init) by {
        forall i | 0 <= i < |init| ensures '&' !in init[i].0 && '=' !in init[i].0 && '&' !in init[i].1 {
          assert init[i] == pairs[i];
        }
      }
      assert pieces[..n - 1] == Pieces(init) by {
        forall i | 0 <= i < n - 1 ensures pieces[..n - 1][i] == Pieces(init)[i] {
          assert init[i] == pairs[i];
        }
      }
      DecodeAllPieces(init);
      var (key, value) := pairs[n - 1];
      assert pieces[n - 1] == key + "=" + value;
      DecodePairOf(key, value);
      assert pieces[n - 1] != "";
      assert DecodePieces(pieces) == DecodePieces(pieces[..n - 1])[key := value];
    }
  }

  /** Decoding what the reference encoder wrote gives back the pairs' map. */
  lemma FormRoundTrip(pairs: seq<(string, string)>)
    requires Encodable(pairs)
    ensures FormDecode(FormEncode(pairs)) == PairsToMap(pairs)
  {
    var pieces := Pieces(pairs);
    if pairs == [] {
      assert FormEncode(pairs) == "";
      assert Text.Split("", '&') == [""];
      assert DecodePieces([""]) == DecodePieces([]);
    } else {
      forall i | 0 <= i < |pieces| ensures '&' !in pieces[i] {
        assert pieces[i] == pairs[i].0 + "=" + pairs[i].1;
      }
      Text.SplitJoin(pieces, '&');
      DecodeAllPieces(pairs);
    }
  }

  /** What `qs.parse` makes of a response body: a string is decoded, anything else gives no keys. */
  function ParseBody(body: JsValue): Tokens
  {
    if body.Str? then FormDecode(body.s) else map[]
  }

  /**
   * `handleHttpResponse`: an error is passed on untouched; otherwise the decoded body
   * with `oauth_callback_confirmed` removed and every other key and value kept.
   */
  function HandleHttpResponse(c: Result<Http.Response, ApiError>): (r: Result<Tokens, ApiError>)
    ensures c.Failure? ==> r == Failure(c.error)
    ensures c.Success? ==>
      && r.Success?
      && CallbackConfirmed !in r.value
      && forall k | k != CallbackConfirmed ::
           (k in r.value <==> k in ParseBody(c.value.body))
           && (k in r.value ==> r.value[k] == ParseBody(c.value.body)[k])
  {
    match c
    case Failure(e) => Failure(e)
    case Success(res) => Success(ParseBody(res.body) - {CallbackConfirmed})
  }

  /** `qs.parse` of a body that is not a string yields an empty object, so no tokens come back. */
  lemma NonStringBodyYieldsNoTokens(res: Http.Response)
    requires !res.body.Str?
    ensures HandleHttpResponse(Success(res)) == Success(map[])
  {
  }

  /**
   * `xauth(username, password)`: without reader credentials nothing is sent; otherwise one GET
   * to the XAuth path, signed with the consumer pair and no token, carrying exactly the three x_auth keys.
   */
  function XAuth(conf: Settings, username: string, password: string, o: Http.Outcome): (r: Http.Reply<Tokens>)
    ensures !HasReaderCredentials(conf) ==> r == Http.Call([], Failure(ReaderConsumerKeys))
    ensures HasReaderCredentials(conf) ==>
      r.sent == [Http.HttpRequest(Http.GET, Http.BaseUrl + "/rest/v1/oauth/access_token/", true,
                   Http.Options(Some(Http.OAuth(conf.consumerKey.value, conf.consumerSecret.value, None, None)),
                                Some(map["x_auth_username" := Str(username),
                                         "x_auth_password" := Str(password),
                                         "x_auth_mode" := Str("client_auth")]),
                                None))]
    ensures HasReaderCredentials(conf) && !Http.PassesThrough(o) ==>
      r.result == Failure(Http.HandleHttpResponse(o).error)
    ensures HasReaderCredentials(conf) && Http.PassesThrough(o) ==>
      r.result == HandleHttpResponse(Success(o.response))
  {
    if !HasReaderCredentials(conf) then Http.Call([], Failure(ReaderConsumerKeys))
    else
      var options := Http.Options(Some(Http.OAuth(conf.consumerKey.value, conf.consumerSecret.value, None, None)),
                                  Some(map["x_auth_username" := Str(username),
                                           "x_auth_password" := Str(password),
                                           "x_auth_mode" := Str("client_auth")]),
                                  None);
      var c := Http.Request(Http.GET, XAuthPath, options, o);
      Http.Call(c.sent, HandleHttpResponse(c.result))
  }

  /** test/auth.js:13-22: two tokens come back and the callback confirmation is dropped. */
  lemma XAuthTokensExample(conf: Settings, username: string, password: string)
    requires HasReaderCredentials(conf)
    ensures var body := FormEncode([("oauth_token", "some_token"), ("oauth_token_scret", "some_token_secret"),
                                    (CallbackConfirmed, "true")]);
            XAuth(conf, username, password, Http.Responded(Http.Response(200, map[], Str(body)))).result
              == Success(map["oauth_token" := "some_token", "oauth_token_scret" := "some_token_secret"])
  {
    var p0, p1, p2 := ("oauth_token", "some_token"), ("oauth_token_scret", "some_token_secret"), (CallbackConfirmed, "true");
    var pairs := [p0, p1, p2];
    FormRoundTrip(pairs);
    var empty: seq<(string, string)> := [];
    assert [p0][..0] == empty;
    assert PairsToMap([p0]) == map[p0.0 := p0.1];
    assert [p0, p1][..1] == [p0];
    assert PairsToMap([p0, p1]) == map[p0.0 := p0.1, p1.0 := p1.1];
    assert pairs[..2] == [p0, p1];
    assert PairsToMap(pairs) == map[p0.0 := p0.1, p1.0 := p1.1, p2.0 := p2.1];
    assert p2.0 != p0.0 && p2.0 != p1.0;
    var body := FormEncode(pairs);
    assert XAuth(conf, username, password, Http.Responded(Http.Response(200, map[], Str(body)))).result
           == Success(FormDecode(body) - {CallbackConfirmed});
    assert map[p0.0 := p0.1, p1.0 := p1.1, p2.0 := p2.1] - {CallbackConfirmed} == map[p0.0 := p0.1, p1.0 := p1.1];
  }
}
