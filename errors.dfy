/**
 * The errors a client call can end in, and their message texts (lib/errors.js,
 * plus the constructor error of lib/reader.js).
 */
module Errors {
  import opened Js
  import Text

  /** What follows "HTTP <code>: " in a status error: the raw body, or the body's `messages` to be stringified. */
  datatype HttpMessage = BodyText(body: JsValue) | MessagesJson(messages: JsValue)

  /** The uncaught JavaScript exceptions the source runs into, made explicit. */
  datatype Fault =
    | MessagesOfNullishBody   // `body.messages` on a null or undefined error body
    | DeleteOnNullishBody     // `delete body.conditions` when there is no body
    | NoLocationHeader        // `res.headers.location.match` with no Location header
    | LocationMismatch        // the Location header does not end in bookmarks/<digits>
    | MetaOfNullishBody       // `body.meta` when there is no body
    | ParserGateUndefined     // `config.containsParserToken` is not a function

  datatype ApiError =
    | Transport(cause: string)             // the transport's own error, passed on untouched
    | Http(code: nat, message: HttpMessage) // errors.http(code, message)
    | ReaderConsumerKeys                   // errors.readerConsumerKeys()
    | ParserTokenMissing                   // errors.parserTokenMissing()
    | InvalidSession                       // the Reader constructor's throw
    | Thrown(fault: Fault)

  /** How the two configuration errors name the service. */
  const ApiName := "The Readability API"
  const ReaderConsumerKeysText :=
    ApiName + " must be configured with a developer key and secret before it can be used"
  const ParserTokenMissingText :=
    ApiName + " must be configured with a parser token before it can be used"
  const InvalidSessionText :=
    "Reader clients must be initialized with an OAuth token and token secret"

  /** The message of `errors.http(code, message)`. */
  function HttpText(code: nat, message: string): (t: string)
    ensures |t| >= |message| + 8 && t[..5] == "HTTP "
    ensures t[|t| - |message|..] == message
  {
    "HTTP " + Text.NatToDecimal(code) + ": " + message
  }

  /** Two status-error texts are equal only when code and message both are. */
  lemma HttpTextInjective(c1: nat, m1: string, c2: nat, m2: string)
    requires HttpText(c1, m1) == HttpText(c2, m2)
    ensures c1 == c2 && m1 == m2
  {
    var a, b := Text.NatToDecimal(c1), Text.NatToDecimal(c2);
    var t := HttpText(c1, m1);
    assert t == "HTTP " + a + ": " + m1;
    assert t == "HTTP " + b + ": " + m2;
    // the decimal text is the run of digits that ends at the first ':'
    DigitsThenColon(a, m1);
    DigitsThenColon(b, m2);
    assert |a| == |b|;
    assert a == t[5..5 + |a|] == b;
    Text.NatToDecimalInjective(c1, c2);
    assert m1 == t[7 + |a|..] == m2;
  }

  /** In "HTTP <digits>: <message>" the digits run from index 5 up to a ':'. */
  lemma DigitsThenColon(digits: string, message: string)
    requires Text.AllDigits(digits)
    ensures var t := "HTTP " + digits + ": " + message;
            && t[5 + |digits|] == ':'
            && forall i | 5 <= i < 5 + |digits| :: Text.IsDigit(t[i])
  {
    var t := "HTTP " + digits + ": " + message;
    forall i | 5 <= i < 5 + |digits| ensures Text.IsDigit(t[i]) {
      assert t[i] == digits[i - 5];
    }
  }

  /** The two fixed messages differ from each other and from every status-error text. */
  lemma FixedMessagesDistinct(code: nat, message: string)
    ensures ReaderConsumerKeysText != ParserTokenMissingText
    ensures HttpText(code, message) != ReaderConsumerKeysText
    ensures HttpText(code, message) != ParserTokenMissingText
  {
    assert |ReaderConsumerKeysText| != |ParserTokenMissingText|;
    var t := HttpText(code, message);
    assert t[0] == 'H';
  }

  /**
   * `err.message` for an error that is a JavaScript `Error`; `stringify` stands for
   * `JSON.stringify`, which is not part of this model.
   */
  function Message(e: ApiError, stringify: JsValue -> string): (t: string)
    requires !e.Thrown?
    ensures e.Transport? ==> t == e.cause
    ensures e.Http? ==> |t| >= 5 && t[..5] == "HTTP "
    ensures e.Http? && e.message.BodyText? ==>
              |t| >= |ToJsString(e.message.body)| && t[|t| - |ToJsString(e.message.body)|..] == ToJsString(e.message.body)
    ensures e.ReaderConsumerKeys? || e.ParserTokenMissing? ==> |t| >= |ApiName| && t[..|ApiName|] == ApiName
    ensures e.Http? ==>
              t == HttpText(e.code, if e.message.BodyText? then ToJsString(e.message.body) else stringify(e.message.messages))
    ensures e.ReaderConsumerKeys? ==> t == ReaderConsumerKeysText
    ensures e.ParserTokenMissing? ==> t == ParserTokenMissingText
    ensures e.InvalidSession? ==> t == InvalidSessionText
  {
    match e
    case Transport(cause) => cause
    case Http(code, message) =>
      HttpText(code, match message
                     case BodyText(body) => ToJsString(body)
                     case MessagesJson(messages) => stringify(messages))
    case ReaderConsumerKeys => ReaderConsumerKeysText
    case ParserTokenMissing => ParserTokenMissingText
    case InvalidSession => InvalidSessionText
  }
}
