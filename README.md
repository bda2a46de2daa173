# Readability API client — a Dafny model of its request/response logic

This project models the decision logic of the Readability API client for Node:
how each call builds its request, which configuration gates it, and how the
provider's answer is classified and reshaped before it reaches the caller's
callback. The network is not called. Each operation takes the transport's
answer as an input `Http.Outcome`: either a transport error or a
`(status, headers, body)` response. It returns an `Http.Call`: the list of
requests it issued (zero, one or two) and what its callback would receive.

Modules follow the source files:

- `Http` (lib/http.js). The base URL, the six error statuses, request construction and response classification.
- `Config` (lib/config.js). The three-field developer configuration as a class `ProcessConfig`, which `Set` overwrites in place. Its `Settings` value is what `get()` hands out.
- `Errors` (lib/errors.js). The error taxonomy and the exact message texts.
- `ReaderApi` (lib/reader.js, lib/session.js). Session validation, the signed and gated reader request, and every reader operation.
- `ParserApi` (lib/parser.js), `ShortenerApi` (lib/shortener.js) and `Auth` (lib/auth.js). XAuth and the decoding of form-encoded bodies.
- `Js`, `Text` and `Wrappers` are supporting modules. They cover JavaScript values and truthiness, decimal text, join/split, and Option/Result.

Every client operation is a function of the configuration as it stands when the
call is made (the value `ProcessConfig.Get()` returns). This matches the source,
which reads `config.get()` at call time. A `Reader` is a value: the source assigns
its session once, in the constructor, and nothing changes it afterwards.
JavaScript exceptions that the source does not catch are explicit failures
`ApiError.Thrown(fault)`.

Some behaviour of the code is easy to mistake, and the model keeps it as coded:

- A transport error is passed to the callback as the transport's own error object, unchanged.
- An error status with no body throws inside the response handler, at `body.messages`, before any operation's callback runs.
- `url(id)` reads `body.meta` without a guard. A passed-through response with no body therefore throws.
- The parser gate calls a function that lib/config.js does not define. `ParserApi.RequestAsWritten` models that call as written. `ParserApi.Parse` and `ParserApi.Confidence` are built on `ParserApi.Request`, which applies the intended gate (see Findings).
- `bookmarks` turns every error that reaches its callback into a TypeError. `ReaderApi.BookmarksAsWritten` models this. `ReaderApi.Bookmarks` relays the error instead (see Findings).

## Model

| member | source | states |
|---|---|---|
| `Text.NatToDecimal` | lib/errors.js:2 | The status code's decimal text is non-empty and all digits. It starts with '0' only for zero. |
| `Text.DecimalRoundTrip` | lib/errors.js:2 | Reading the decimal text back gives the code. |
| `Text.NatToDecimalInjective` | lib/errors.js:2 | Different codes give different decimal texts. |
| `Text.SplitJoin` | lib/reader.js:186 | Splitting a `join(',')` on ',' gives the parts back when no part contains a comma. |
| `Errors.HttpText` | lib/errors.js:1-3 | The message of `errors.http(code, msg)` starts with "HTTP " and ends with exactly `msg`. |
| `Errors.HttpTextInjective` | lib/errors.js:2 | Two status-error texts are equal only when their codes and messages are equal. This gives injectivity in the message for a fixed code. |
| `Errors.DigitsThenColon` | lib/errors.js:2 | In the status-error text, the code's digits run from index 5 up to the ':'. |
| `Errors.Message` | lib/errors.js:1-11 | The `message` of each error. A transport error keeps its own text. A status error is exactly `HttpText(code, text)`, where `text` is the body's string form, or `JSON.stringify(messages)` when the body has a truthy `messages` (lib/http.js:17). The two configuration errors give exactly their fixed texts, and the Reader constructor's error gives its own (lib/reader.js:24). |
| `Errors.FixedMessagesDistinct` | lib/errors.js:5-11 | The consumer-keys and parser-token messages differ from each other and from every "HTTP …" text. |
| `Config.ReaderGateIgnoresParserToken` | lib/config.js:29-31 | The reader-credentials gate does not depend on the parser token. |
| `Config.ProcessConfig.constructor` | lib/config.js:2 | The configuration starts with all three fields absent. |
| `Config.ProcessConfig.Set` | lib/config.js:11-23 | All three fields are replaced by the argument's. `Get` (the stored fields, lib/config.js:21-23) afterwards returns exactly the argument. There is no merge: `Set` of an empty record clears everything. |
| `Config.ProcessConfig.ContainsReaderCredentials` | lib/config.js:29-31 | Holds if and only if the consumer key and consumer secret are both present and non-empty. |
| `Http.HandleHttpResponse` | lib/http.js:11-23 | A transport error comes back unchanged. A status in {400, 401, 403, 404, 500, 504} always gives an HTTP error with that code. Its message is the body's truthy `messages` when there is one, else the raw body. Reading `messages` of a missing body throws. Every other status yields the response untouched. |
| `Http.Request` | lib/http.js:32-40 | Exactly one request goes to BASE_URL + path, with `json` on, the caller's method and the caller's options. The outcome is classified as above. |
| `Http.StatusAloneDecidesFailure` | lib/http.js:12-20 | A corollary of the classifier's contract, for two inputs: two responses with the same status both fail or both pass, whatever their headers and bodies. An HTTP error carries the status it came from. |
| `Http.InvalidCredentialsMessage` | lib/http.js:14-19 | A 401 with body "Invalid user credentials." gives the message `HTTP 401: Invalid user credentials.`. |
| `ReaderApi.NewReader` | lib/reader.js:9-28 | Construction succeeds if and only if both options are given and non-empty. Otherwise it fails with the constructor's error. The session holds exactly the two values given. |
| `ReaderApi.Request` | lib/reader.js:30-49 | Without reader credentials: no request and the consumer-keys error. With them: one request to /rest/v1 + path, with OAuth consumer key/secret from the configuration and token/secret from the session, and the pipeline's result. |
| `ReaderApi.User` | lib/reader.js:55-59 | GET /users/_current. Errors are relayed unchanged and a response delivers its body. |
| `ReaderApi.BookmarksAsWritten` | lib/reader.js:66-71 | GET /bookmarks with the query. An error status with no body throws in the response handler. Every other error, including the missing-credentials one, becomes the TypeError of the delete. A body object loses only `conditions`. |
| `ReaderApi.Bookmarks` | lib/reader.js:66-71 | The corrected list. Errors are relayed. A body object comes back without `conditions`, with every other key and value unchanged. |
| `ReaderApi.BookmarksAsWrittenHidesErrors` | lib/reader.js:67-69 | On every failing exchange the code as written throws, while the corrected list fails with something other than the delete's TypeError. Wherever the corrected list reports a real, non-thrown error, the code as written replaces it with that TypeError. |
| `ReaderApi.Bookmark` | lib/reader.js:78-82 | GET /bookmarks/<id>. Errors are relayed and the body is delivered. |
| `ReaderApi.MatchBookmarkIdIsPattern` | lib/reader.js:95 | The Location matcher `MatchBookmarkId` returns `id` if and only if the header ends in `bookmarks/` followed by `id`, and `id` is all digits. |
| `ReaderApi.MatchBookmarkIdNone` | lib/reader.js:95 | The matcher fails exactly when no id fits the pattern. |
| `ReaderApi.AddBookmark` | lib/reader.js:89-98 | Sends a POST /bookmarks with form {url}. If that fails, the error comes back after that one request. If Location is missing or does not match, the call throws. Otherwise a second request fetches /bookmarks/<id> and its body or error is delivered. |
| `ReaderApi.AddBookmarkFollowsLocation` | lib/reader.js:92-96 | For any non-error status (202 and 409 alike), a Location ending in bookmarks/<digits> leads to a GET of exactly /rest/v1/bookmarks/<digits>. The fetched body is the result. |
| `ReaderApi.UpdateBookmark` | lib/reader.js:100-104 | POST /bookmarks/<id> with the fields as the form. Errors are relayed and the body is delivered. |
| `ReaderApi.RemoveBookmark` | lib/reader.js:111-116 | DELETE /bookmarks/<id>. Gives `true` exactly when the exchange passes; otherwise only the error. |
| `ReaderApi.ArchiveBookmark` | lib/reader.js:123-125 | POST /bookmarks/<id> with form {archive: 1}. |
| `ReaderApi.UnarchiveBookmark` | lib/reader.js:132-134 | POST /bookmarks/<id> with form {archive: 0}. |
| `ReaderApi.FavouriteBookmark` | lib/reader.js:141-143 | POST /bookmarks/<id> with form {favorite: 1}. |
| `ReaderApi.UnfavouriteBookmark` | lib/reader.js:150-152 | POST /bookmarks/<id> with form {favorite: 0}. |
| `ReaderApi.FavoriteBookmark` | lib/reader.js:221 | The alias is defined as `favouriteBookmark`. It sends the same request, relays errors and delivers the body. |
| `ReaderApi.UnfavoriteBookmark` | lib/reader.js:222 | The alias is defined as `unfavouriteBookmark`. It sends the same request, relays errors and delivers the body. |
| `ReaderApi.ArchiveThenUnarchive` | lib/reader.js:123-134 | Archive and unarchive send the same URI, verb and credentials, with `archive` 1 against 0. |
| `ReaderApi.UserTags` | lib/reader.js:158-164 | GET /tags. Errors are relayed. The result is `body.tags`, or null when there is no body. |
| `ReaderApi.Tags` | lib/reader.js:171-177 | GET /bookmarks/<id>/tags, with the same unwrapping. |
| `ReaderApi.AddTags` | lib/reader.js:185-193 | POST /bookmarks/<id>/tags with form {tags: names joined by ','}, with the same unwrapping. |
| `ReaderApi.AddTagsSendsNames` | lib/reader.js:186-188 | The sent `tags` field splits back into exactly the names when none contains a comma. |
| `ReaderApi.RemoveTag` | lib/reader.js:201-207 | DELETE /bookmarks/<bookmarkId>/tags/<tagId>. Gives `true` exactly when the exchange passes. |
| `ReaderApi.Article` | lib/reader.js:214-218 | GET /articles/<id>. Errors are relayed and the body is delivered. |
| `ParserApi.RequestAsWritten` | lib/parser.js:15-21 | As written, every call throws before sending anything. |
| `ParserApi.Request` | lib/parser.js:15-26 | Without a parser token: no request and the parser-token error. With one: a single unsigned GET to /content/v1 + path, whose query is the caller's keys plus `token`, which overrides the caller's own `token`. |
| `ParserApi.RequestIgnoresVerb` | lib/parser.js:25 | The method argument makes no difference to the request or the result. |
| `ParserApi.ParserAsWrittenAlwaysThrows` | lib/parser.js:19 | Even fully configured, the code as written sends nothing and throws. The intended gate sends one request. |
| `ParserApi.Parse` | lib/parser.js:33-37 | GET /content/v1/parser with query {url, token}. The body is returned unchanged and errors are relayed. |
| `ParserApi.Confidence` | lib/parser.js:44-50 | GET /content/v1/confidence with query {url, token}. Delivers `body.confidence`, or null when there is no body. |
| `ShortenerApi.Shorten` | lib/shortener.js:17-29 | Always exactly one POST /shortener/v1/urls with form {url}, with no gate. An error gives (err, null, null). Success gives `meta.rdd_url` when body and meta are truthy, else undefined, together with the raw body. |
| `ShortenerApi.Url` | lib/shortener.js:36-42 | Always one GET /shortener/v1/urls/<id>. An error gives only the error. A response delivers `body.meta`, and a missing body throws. |
| `ShortenerApi.ShortenServerError` | lib/shortener.js:18-19 | A 500 answer gives the HTTP 500 error with a null short URL and a null body. |
| `Auth.DecodePairOf` | lib/auth.js:15 | A piece `key=value` whose key has no '=' decodes to exactly (key, value). |
| `Auth.FormRoundTrip` | lib/auth.js:15 | The body decoder `FormDecode` inverts form encoding: decoding `k1=v1&k2=v2…` gives back the pairs' map when keys are free of '&' and '=' and values are free of '&'. |
| `Auth.HandleHttpResponse` | lib/auth.js:10-19 | An error is passed on untouched. Otherwise the result is the decoded body (`ParseBody`) without `oauth_callback_confirmed`, with every other key and value kept. |
| `Auth.NonStringBodyYieldsNoTokens` | lib/auth.js:15 | A body that is not a string parses to an empty object, so the call succeeds with no tokens. |
| `Auth.XAuth` | lib/auth.js:27-50 | Without reader credentials: no request and the consumer-keys error. With them: one GET to /rest/v1/oauth/access_token/, signed with the consumer pair and no token. Its query is exactly x_auth_username, x_auth_password and x_auth_mode = client_auth. HTTP errors are relayed. |
| `Auth.XAuthTokensExample` | lib/auth.js:15-18 | The answer `oauth_token=…&oauth_token_scret=…&oauth_callback_confirmed=true` yields just the two token keys. |

## Findings

| source | as written | input that shows it | evidently intended | confidence | as-written member | corrected member |
|---|---|---|---|---|---|---|
| lib/parser.js:19 | `config.containsParserToken()` is called, but lib/config.js exports no such function, so every parser call throws a TypeError before any request | any call, e.g. `parse(url)` with consumer key, secret and parser token all configured | gate on a present, non-empty parser token, then send the GET | high, not executed | `ParserApi.RequestAsWritten` | `ParserApi.Request` |
| lib/reader.js:67-68 | `delete body.conditions` runs before `err` is looked at. On any error `body` is undefined, so the call throws instead of reporting the error | a 404 answer to GET /bookmarks with body "Not found.", or no consumer credentials | relay the error to the callback; otherwise delete `conditions` as before (a passed-through answer with no body still throws) | high, not executed | `ReaderApi.BookmarksAsWritten` | `ReaderApi.Bookmarks` |

## Left out

- The transport is not modelled: the `request` library, TLS, JSON decoding of response bodies, timeouts and retries. The transport's answer is an input, with lower-case header names and the body already decoded.
- OAuth 1.0 signing (RFC 5849) is not modelled. A request records the four credential fields handed to the signer, not a signature.
- Callbacks and asynchrony are not modelled. Each callback is the operation's result. `addBookmark` takes its two answers in order. Both of its requests see the same configuration, so a `set` racing between them is not modelled.
- Callback arity: an error reaches the caller as `Failure(err)`. The extra `null`/`undefined` arguments beside it are not modelled, except for `shorten`, whose `(err, null, null)` triple is kept.
- Errors.Message: `JSON.stringify` of `messages` is a function parameter, not a definition. An HTTP error keeps `messages` symbolically. The text of a thrown TypeError is engine-specific and not modelled.
- Auth.FormRoundTrip: `qs.parse` is simplified. The model splits on '&', skips empty pieces and splits each piece at its first '='. It does no percent- or '+'-decoding, has no key limit, and a repeated key keeps its last value instead of becoming an array.
- Numbers are opaque. A number is kept as its canonical text (0.7 stays "0.7"). Only its truthiness and its string form are used.
- Js.Get: built-in properties of strings and arrays (such as `length`) are not modelled. A property read on a non-object yields undefined.
- In-place mutation is modelled as new values: `_.extend` on caller options, `delete` on bodies and decoded maps, and the live object `config.get()` returns. Aliasing of these objects by callers is not modelled.
- Request options are a typed record of `oauth`, `qs` and `form`. Caller keys that would collide with `uri`, `json` or `method` cannot be expressed.
- Configuration fields and session tokens are strings or absent. Other JavaScript values are not modelled.
- index.js is export wiring only and is not part of this model. It also omits `parser` and `shortener`, which its test expects.
