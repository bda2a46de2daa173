/** The process-wide developer configuration (lib/config.js). */
module Config {
  import opened Wrappers

  /** The three fields `set` copies; an absent field is `None` (JavaScript's undefined). */
  datatype Settings = Settings(consumerKey: Option<string>, consumerSecret: Option<string>, parserToken: Option<string>)

  /** Truthiness of a string-or-undefined field: present and non-empty. */
  predicate Present(field: Option<string>) {
    field.Some? && field.value != ""
  }

  /** `containsReaderCredentials`: consumer key and consumer secret are both truthy. */
  predicate HasReaderCredentials(s: Settings) {
    Present(s.consumerKey) && Present(s.consumerSecret)
  }

  /**
   * The parser-token gate lib/parser.js:19 means to apply. lib/config.js defines no
   * `containsParserToken`; ParserApi models both the call as written and this gate.
   */
  predicate HasParserToken(s: Settings) {
    Present(s.parserToken)
  }

  /** The reader gate never looks at the parser token. */
  lemma ReaderGateIgnoresParserToken(s: Settings, token: Option<string>)
    ensures HasReaderCredentials(s.(parserToken := token)) == HasReaderCredentials(s)
  {
  }

  /** The module-level `config` object, whose fields `set` overwrites. */
  class ProcessConfig {
    var consumerKey: Option<string>
    var consumerSecret: Option<string>
    var parserToken: Option<string>

    /** The module starts from `{}`: every field absent. */
    constructor ()
      ensures Get() == Settings(None, None, None)
    {
      consumerKey, consumerSecret, parserToken := None, None, None;
    }

    /** `get`: the values stored now. */
    function Get(): Settings
      reads this
    {
      Settings(consumerKey, consumerSecret, parserToken)
    }

    /** `set(options)`: all three fields are replaced, so nothing of the earlier configuration survives. */
    method Set(options: Settings)
      modifies this
      ensures consumerKey == options.consumerKey
      ensures consumerSecret == options.consumerSecret
      ensures parserToken == options.parserToken
      ensures Get() == options
    {
      consumerKey := options.consumerKey;
      consumerSecret := options.consumerSecret;
      parserToken := options.parserToken;
    }

    /** `containsReaderCredentials` on the stored values. */
    predicate ContainsReaderCredentials()
      reads this
      ensures ContainsReaderCredentials() <==>
                (consumerKey.Some? && consumerKey.value != "" && consumerSecret.Some? && consumerSecret.value != "")
    {
      HasReaderCredentials(Get())
    }
  }
}
