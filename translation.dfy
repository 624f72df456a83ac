/** src-tauri/src/translation.rs: language detection, the ja/en toggle, and
    the checks `translate` applies to the provider's HTTP response. The HTTP
    exchange itself is represented by what it produced (`ProviderReply`). */
module Translation {
  import opened Wrappers
  import opened Text

  /** Hiragana, Katakana, CJK Unified Ideographs (to U+9FAF) and CJK Extension A. */
  predicate IsJapanese(c: char) {
    var n := c as int;
    (0x3040 <= n <= 0x309F) || (0x30A0 <= n <= 0x30FF) || (0x4E00 <= n <= 0x9FAF) || (0x3400 <= n <= 0x4DBF)
  }

  /** `text.chars().filter(is Japanese).count()` */
  function JapaneseCount(s: string): nat {
    if s == [] then 0 else (if IsJapanese(s[0]) then 1 else 0) + JapaneseCount(s[1..])
  }

  /** `text.chars().filter(|c| !c.is_whitespace()).count()` */
  function NonWhitespaceCount(s: string): nat {
    if s == [] then 0 else (if IsWhitespace(s[0]) then 0 else 1) + NonWhitespaceCount(s[1..])
  }

  /** `detect_language`: "ja" when more than a tenth of the non-whitespace
      characters are Japanese. The ratio is computed exactly; the source does it in `f32`. */
  function DetectLanguage(text: string): (lang: string)
    ensures lang == "ja" || lang == "en"
  {
    var japanese := JapaneseCount(text);
    var total := NonWhitespaceCount(text);
    if total > 0 && (japanese as real) / (total as real) > 0.1 then "ja" else "en"
  }

  /** `get_target_language` */
  function TargetLanguage(detected: string): string {
    if detected == "ja" then "en" else "ja"
  }

  /** No Japanese character is whitespace, so the Japanese count never exceeds
      the non-whitespace count, which never exceeds the length. */
  lemma {:induction false} CountsBounded(s: string)
    ensures JapaneseCount(s) <= NonWhitespaceCount(s) <= |s|
  {
    if s != [] {
      CountsBounded(s[1..]);
    }
  }

  /** The ratio test is the integer comparison `10 * japanese > total`. */
  lemma DetectJapaneseIff(text: string)
    ensures DetectLanguage(text) == "ja"
        <==> NonWhitespaceCount(text) > 0 && 10 * JapaneseCount(text) > NonWhitespaceCount(text)
  {
    if NonWhitespaceCount(text) > 0 {
      RatioAboveTenth(JapaneseCount(text), NonWhitespaceCount(text));
    }
  }

  lemma RatioAboveTenth(j: nat, n: nat)
    requires n > 0
    ensures (j as real) / (n as real) > 0.1 <==> 10 * j > n
  {
    var x, y := j as real, n as real;
    var q := x / y;
    assert q * y == x;
    if q > 0.1 {
      ScaleStrict(q, 0.1, y);
    }
    if 10 * j > n && q < 0.1 {
      ScaleStrict(0.1, q, y);
    }
  }

  lemma ScaleStrict(a: real, b: real, y: real)
    requires y > 0.0 && a > b
    ensures a * y > b * y
  {
  }

  lemma {:induction false} NoNonWhitespaceInBlank(s: string)
    requires AllWhitespace(s)
    ensures NonWhitespaceCount(s) == 0
  {
    if s != [] {
      assert AllWhitespace(s[1..]) by {
        forall i | 0 <= i < |s[1..]| ensures IsWhitespace(s[1..][i]) { assert s[1..][i] == s[i + 1]; }
      }
      NoNonWhitespaceInBlank(s[1..]);
    }
  }

  /** Empty or all-whitespace text is English. */
  lemma BlankTextIsEnglish(text: string)
    requires AllWhitespace(text)
    ensures DetectLanguage(text) == "en"
  {
    NoNonWhitespaceInBlank(text);
  }

  lemma {:induction false} NoJapaneseCounted(s: string)
    requires forall i :: 0 <= i < |s| ==> !IsJapanese(s[i])
    ensures JapaneseCount(s) == 0
  {
    if s != [] {
      assert forall i :: 0 <= i < |s[1..]| ==> !IsJapanese(s[1..][i]) by {
        forall i | 0 <= i < |s[1..]| ensures !IsJapanese(s[1..][i]) { assert s[1..][i] == s[i + 1]; }
      }
      NoJapaneseCounted(s[1..]);
    }
  }

  /** Text without a character in the four ranges is English; ASCII text in particular. */
  lemma NoJapaneseIsEnglish(text: string)
    requires (forall i :: 0 <= i < |text| ==> !IsJapanese(text[i])) || IsAscii(text)
    ensures DetectLanguage(text) == "en"
  {
    if IsAscii(text) {
      assert forall i :: 0 <= i < |text| ==> !IsJapanese(text[i]) by {
        forall i | 0 <= i < |text| ensures !IsJapanese(text[i]) { assert (text[i] as int) < 0x80; }
      }
    }
    NoJapaneseCounted(text);
  }

  lemma {:induction false} AllJapaneseCounted(s: string)
    requires forall i :: 0 <= i < |s| ==> IsJapanese(s[i])
    ensures JapaneseCount(s) == NonWhitespaceCount(s) == |s|
  {
    if s != [] {
      assert forall i :: 0 <= i < |s[1..]| ==> IsJapanese(s[1..][i]) by {
        forall i | 0 <= i < |s[1..]| ensures IsJapanese(s[1..][i]) { assert s[1..][i] == s[i + 1]; }
      }
      AllJapaneseCounted(s[1..]);
    }
  }

  /** Non-empty text made only of kana and kanji is Japanese. */
  lemma AllJapaneseIsJapanese(text: string)
    requires text != [] && forall i :: 0 <= i < |text| ==> IsJapanese(text[i])
    ensures DetectLanguage(text) == "ja"
  {
    AllJapaneseCounted(text);
    DetectJapaneseIff(text);
  }

  /** The toggle sends "ja" to "en" and everything else to "ja", so the target
      never equals the detected source. */
  lemma TargetDiffersFromSource(text: string)
    ensures TargetLanguage("ja") == "en"
    ensures forall other :: other != "ja" ==> TargetLanguage(other) == "ja"
    ensures TargetLanguage(DetectLanguage(text)) != DetectLanguage(text)
  {
  }

  /** An HTTP status; `reqwest::StatusCode` holds only 100 to 999. */
  type StatusCode = c: int | 100 <= c <= 999 witness 200

  const TooManyRequests: StatusCode := 429

  predicate IsSuccess(status: StatusCode) {
    200 <= status <= 299
  }

  /** What decoding the response body yields: as `WorkerError`, its `error`
      field (`None` when the body does not decode); as `WorkerResponse`, its
      `translation` field or the decoder's error message. */
  datatype ResponseBody = ResponseBody(asError: Option<string>, asResponse: Result<string>)

  /** What the HTTP exchange produced: a transport failure (client construction,
      connection, timeout), already turned into its message, or a response. */
  datatype ProviderReply =
    | TransportFailure(message: string)
    | Responded(status: StatusCode, body: ResponseBody)

  // Written as two literals so that lemmas can name single characters of the message.
  const RateLimitMessage := "Rate limit exceeded. " + "Please wait a moment and try again."
  const ServerErrorPrefix := "Translation error: "
  const ParsePrefix := "Failed to parse response: "
  const EmptyTranslation := "Empty translation response"

  /** Decimal digits of a number, as `{}` formats it. */
  function Decimal(n: nat): (s: string)
    ensures |s| >= 1
    decreases n
  {
    if n < 10 then [Digit(n)] else Decimal(n / 10) + [Digit(n % 10)]
  }

  function Digit(d: nat): char
    requires d < 10
  {
    "0123456789"[d]
  }

  /** The checks `translate` applies once a response has arrived. */
  function Classify(status: StatusCode, body: ResponseBody): Result<string> {
    if status == TooManyRequests then Err(RateLimitMessage)
    else if !IsSuccess(status) then
      Err(ServerErrorPrefix + if body.asError.Some? then body.asError.value else "HTTP error: " + Decimal(status))
    else if body.asResponse.Err? then Err(ParsePrefix + body.asResponse.error)
    else if Trim(body.asResponse.value) == [] then Err(EmptyTranslation)
    else Ok(Trim(body.asResponse.value))
  }

  /** `translate`, from what the HTTP exchange produced. */
  function Translate(reply: ProviderReply): Result<string> {
    match reply
    case TransportFailure(message) => Err(message)
    case Responded(status, body) => Classify(status, body)
  }

  /** Status 429, and no other status, gives the rate-limit message. */
  lemma RateLimitExactlyOn429(status: StatusCode, body: ResponseBody)
    ensures Classify(status, body) == Err(RateLimitMessage) <==> status == TooManyRequests
  {
    var r := Classify(status, body);
    assert RateLimitMessage[0] == 'R';
    if status != TooManyRequests && r.Err? {
      if !IsSuccess(status) {
        var detail := if body.asError.Some? then body.asError.value else "HTTP error: " + Decimal(status);
        assert r.error == ServerErrorPrefix + detail;
        assert r.error[0] == 'T';
      } else if body.asResponse.Err? {
        assert r.error == ParsePrefix + body.asResponse.error;
        assert r.error[0] == 'F';
      } else {
        assert r.error == EmptyTranslation;
      }
    }
  }

  /** Every other failing status gives a "Translation error: " message. */
  lemma OtherFailingStatusIsServerError(status: StatusCode, body: ResponseBody)
    requires !IsSuccess(status) && status != TooManyRequests
    ensures Classify(status, body).Err?
    ensures StartsWith(Classify(status, body).error, ServerErrorPrefix)
  {
    var detail := if body.asError.Some? then body.asError.value else "HTTP error: " + Decimal(status);
    assert (ServerErrorPrefix + detail)[..|ServerErrorPrefix|] == ServerErrorPrefix;
  }

  /** A successful classification is the response's translation trimmed, and it
      is non-empty and already trimmed; a translation that trims to nothing is
      the empty-translation error. */
  lemma SuccessIsTrimmedTranslation(status: StatusCode, body: ResponseBody)
    ensures Classify(status, body).Ok? <==>
      IsSuccess(status) && body.asResponse.Ok? && !AllWhitespace(body.asResponse.value)
    ensures Classify(status, body).Ok? ==>
      var t := Classify(status, body).value;
      t == Trim(body.asResponse.value) && t != [] && Trim(t) == t
    ensures IsSuccess(status) && body.asResponse.Ok? && AllWhitespace(body.asResponse.value) ==>
      Classify(status, body) == Err(EmptyTranslation)
  {
    if body.asResponse.Ok? {
      TrimEmptyIff(body.asResponse.value);
      TrimIdempotent(body.asResponse.value);
    }
  }
}
