/**
 * The service that asks Gemini's `generateContent` endpoint for suggestions
 * (app/Services/ContentSuggestionService.php).  Its constructor checks the API
 * key and builds the endpoint URL; `getSuggestions` sends one request and sorts
 * the reply into an outcome: an array returned to the caller, or an exception
 * with a message.  The request itself is I/O: its result is the `Transport`
 * value the functions below take, and `json_decode` / `json_encode` are the
 * `decode` / `encode` parameters.
 */
module Services {
  import opened Wrappers
  import opened Json

  // ---------------------------------------------------------------------------
  // Construction: the API key and the endpoint URL
  // ---------------------------------------------------------------------------

  const Model: string := "gemini-2.0-flash"
  const UrlPrefix: string :=
    "https://generativelanguage.googleapis.com/v1beta/models/" + Model + ":generateContent?key="
  const MissingKeyMessage: string := "GEMINI_API_KEY environment variable is not set."

  /** PHP's `empty()` on a string: the empty string and "0". */
  predicate IsEmpty(s: string) {
    s == "" || s == "0"
  }

  /**
   * The key as the typed `string` property holds it: `getenv` answers false for
   * an unset variable (None), which coercive mode turns into "".
   */
  function KeyFromEnvironment(env: Option<string>): (key: string)
    ensures env.None? ==> key == ""
    ensures env.Some? ==> key == env.value
  {
    match env
    case None => ""
    case Some(s) => s
  }

  /** The endpoint URL: the model's `generateContent` method with the key, as is, as the `key` query parameter. */
  function ApiUrl(key: string): (url: string)
    ensures |url| == |UrlPrefix| + |key|
    ensures url[..|UrlPrefix|] == UrlPrefix && url[|UrlPrefix|..] == key
  {
    UrlPrefix + key
  }

  /** Different keys give different URLs: the key can be read back from the URL. */
  lemma ApiUrlInjective(k1: string, k2: string)
    ensures ApiUrl(k1) == ApiUrl(k2) ==> k1 == k2
  {
    if ApiUrl(k1) == ApiUrl(k2) {
      assert k1 == ApiUrl(k1)[|UrlPrefix|..];
    }
  }

  class ContentSuggestionService {
    const geminiApiKey: string
    const geminiApiUrl: string

    /** The fields as the PHP constructor leaves them once its `empty()` check has passed. */
    constructor Init(key: string)
      requires !IsEmpty(key)
      ensures geminiApiKey == key && geminiApiUrl == ApiUrl(key)
      ensures !IsEmpty(geminiApiKey)
    {
      geminiApiKey := key;
      geminiApiUrl := ApiUrl(key);
    }

    /**
     * `new ContentSuggestionService()`: throws (Failure) when the key is empty,
     * otherwise a fresh service holding the key and the URL built from it.
     */
    static method Create(env: Option<string>) returns (r: Result<ContentSuggestionService, string>)
      ensures r.Failure? <==> IsEmpty(KeyFromEnvironment(env))
      ensures r.Failure? ==> r.error == MissingKeyMessage
      ensures r.Success? ==> fresh(r.value)
      ensures r.Success? ==> r.value.geminiApiKey == KeyFromEnvironment(env)
      ensures r.Success? ==> r.value.geminiApiUrl == ApiUrl(KeyFromEnvironment(env))
    {
      var key := KeyFromEnvironment(env);
      if IsEmpty(key) {
        return Failure(MissingKeyMessage);
      }
      var service := new ContentSuggestionService.Init(key);
      return Success(service);
    }
  }

  // ---------------------------------------------------------------------------
  // What the request can come back with, and what the service makes of it
  // ---------------------------------------------------------------------------

  /** What `json_decode` gives: a value, or an error with `json_last_error_msg()`. */
  datatype Decoded = Decoded(value: Json) | DecodeError(message: string)

  /**
   * How the POST ended: a reply body; a Guzzle `RequestException` with its
   * message and, when the server answered, the reply body; or any other
   * exception, with its message.
   */
  datatype Transport =
    | Received(body: string)
    | RequestFailed(message: string, response: Option<string>)
    | OtherFailure(message: string)

  /** What `getSuggestions` does: return an array, or throw with a message. */
  datatype Outcome = Returned(data: Json) | Failed(message: string)

  const TextPath: seq<Step> :=
    [Key("candidates"), Index(0), Key("content"), Key("parts"), Index(0), Key("text")]
  const ErrorPath: seq<Step> := [Key("error")]
  const BlockReasonPath: seq<Step> := [Key("promptFeedback"), Key("blockReason")]
  const PromptRatingsPath: seq<Step> := [Key("promptFeedback"), Key("safetyRatings")]
  const FinishReasonPath: seq<Step> := [Key("candidates"), Index(0), Key("finishReason")]
  const CandidateRatingsPath: seq<Step> := [Key("candidates"), Index(0), Key("safetyRatings")]
  const ErrorMessagePath: seq<Step> := [Key("error"), Key("message")]

  const InvalidJsonPrefix: string := "Invalid JSON response from Gemini API. JSON decode error: "
  const InvalidContentMessage: string := "The content from Gemini is not valid JSON."
  const PromptBlockedPrefix: string := "Gemini API blocked the prompt. Reason: "
  const ResponseBlockedPrefix: string :=
    "Gemini API blocked the response due to safety concerns. Finish Reason: SAFETY. Safety Ratings: "
  const UnexpectedFormatMessage: string := "Unexpected response format from Gemini API."
  const RequestFailedPrefix: string := "Failed to get suggestions from Gemini API. "
  const ConnectionErrorPrefix: string := "Error connecting to Gemini API: "

  /** The TypeError PHP raises when `getSuggestions` returns a non-array. */
  function ReturnTypeMessage(v: Json): string {
    "App\\Services\\ContentSuggestionService::getSuggestions(): Return value must be of type array, "
      + TypeName(v) + " returned"
  }

  /** The TypeError PHP raises when `json_decode` is handed an array. */
  function DecodeArgumentMessage(v: Json): string {
    "json_decode(): Argument #1 ($json) must be of type string, " + TypeName(v) + " given"
  }

  /** A `return` from `getSuggestions`, whose declared return type is `array`. */
  function ReturnArray(v: Json): (r: Outcome)
    ensures r.Returned? <==> IsArray(v)
    ensures r.Returned? ==> r.data == v
    ensures r.Failed? ==> r.message == ReturnTypeMessage(v)
  {
    if IsArray(v) then Returned(v) else Failed(ReturnTypeMessage(v))
  }

  /** The safety ratings at `path`, encoded, or "N/A" when they are not set. */
  function RatingsText(d: Json, path: seq<Step>, encode: Json -> string): string {
    match Get(d, path)
    case Some(r) => encode(r)
    case None => "N/A"
  }

  // The branches of the classification, each taken on its own.

  /** The generated text is set: decode it and return what it holds. */
  function TextArm(d: Json, decode: string -> Decoded): Outcome
    requires Get(d, TextPath).Some?
  {
    var text := Get(d, TextPath).value;
    match StringArgument(text)
    case None => Failed(DecodeArgumentMessage(text))
    case Some(s) => DecodeGenerated(s, decode)
  }

  /** `json_decode` of the generated text, then the `return`. */
  function DecodeGenerated(s: string, decode: string -> Decoded): Outcome {
    match decode(s)
    case DecodeError(_) => Failed(InvalidContentMessage)
    case Decoded(v) => ReturnArray(v)
  }

  /** `promptFeedback.blockReason` is set: the prompt was blocked. */
  function PromptBlockedArm(d: Json, encode: Json -> string): Outcome
    requires Get(d, BlockReasonPath).Some?
  {
    Failed(PromptBlockedPrefix + Interpolate(Get(d, BlockReasonPath).value)
      + ". Safety Ratings: " + RatingsText(d, PromptRatingsPath, encode))
  }

  /** `candidates[0].finishReason` is "SAFETY": the answer was withheld. */
  function ResponseBlockedArm(d: Json, encode: Json -> string): Outcome {
    Failed(ResponseBlockedPrefix + RatingsText(d, CandidateRatingsPath, encode))
  }

  /**
   * The `if/elseif` chain over the decoded reply `d`
   * (app/Services/ContentSuggestionService.php:95-116).
   */
  function Classify(d: Json, decode: string -> Decoded, encode: Json -> string): (r: Outcome)
    ensures r.Returned? ==> IsArray(r.data)
  {
    if Get(d, TextPath).Some? then TextArm(d, decode)
    else if Get(d, ErrorPath).Some? then ReturnArray(d)
    else if Get(d, BlockReasonPath).Some? then PromptBlockedArm(d, encode)
    else if Get(d, FinishReasonPath) == Some(String("SAFETY")) then ResponseBlockedArm(d, encode)
    else Failed(UnexpectedFormatMessage)
  }

  /** The exception message built for a Guzzle `RequestException`. */
  function ConnectionErrorMessage(message: string, response: Option<string>, decode: string -> Decoded): string {
    ConnectionErrorPrefix + message +
      match response
      case None => ""
      case Some(body) => " | Response: " + body + ApiErrorText(decode(body))
  }

  /** The vendor's `error.message` from a decoded reply body, when it is set. */
  function ApiErrorText(details: Decoded): string {
    match details
    case DecodeError(_) => ""
    case Decoded(d) =>
      match Get(d, ErrorMessagePath)
      case None => ""
      case Some(m) => " | API Error: " + Interpolate(m)
  }

  /** `getSuggestions`, from the end of the HTTP request on. */
  function GetSuggestions(t: Transport, decode: string -> Decoded, encode: Json -> string): (r: Outcome)
    ensures r.Returned? ==> IsArray(r.data)
    ensures r.Returned? ==> t.Received?
  {
    match t
    case Received(body) =>
      (match decode(body)
       case DecodeError(m) => Failed(InvalidJsonPrefix + m)
       case Decoded(d) => Classify(d, decode, encode))
    case RequestFailed(m, response) =>
      Failed(RequestFailedPrefix + ConnectionErrorMessage(m, response, decode))
    case OtherFailure(m) => Failed(m)
  }

  // ---------------------------------------------------------------------------
  // First match wins
  // ---------------------------------------------------------------------------

  /** The four conditions of the chain, in the order the code tests them. */
  function Guards(d: Json): seq<bool> {
    [ Get(d, TextPath).Some?,
      Get(d, ErrorPath).Some?,
      Get(d, BlockReasonPath).Some?,
      Get(d, FinishReasonPath) == Some(String("SAFETY")) ]
  }

  /** The position of the first true entry, or |gs| when there is none. */
  function FirstTrue(gs: seq<bool>): (k: nat)
    ensures k <= |gs|
    ensures k < |gs| ==> gs[k]
    ensures forall j :: 0 <= j < k ==> !gs[j]
  {
    if gs == [] then 0 else if gs[0] then 0 else 1 + FirstTrue(gs[1..])
  }

  /** Branch `k` of the chain taken on its own; 4 is the final `else`. */
  function Arm(k: nat, d: Json, decode: string -> Decoded, encode: Json -> string): Outcome
    requires k <= 4
    requires k < 4 ==> Guards(d)[k]
  {
    if k == 0 then TextArm(d, decode)
    else if k == 1 then ReturnArray(d)
    else if k == 2 then PromptBlockedArm(d, encode)
    else if k == 3 then ResponseBlockedArm(d, encode)
    else Failed(UnexpectedFormatMessage)
  }

  /** The outcome is that of the first condition that holds, whatever the later ones say. */
  lemma FirstMatchWins(d: Json, decode: string -> Decoded, encode: Json -> string)
    ensures FirstTrue(Guards(d)) <= 4
    ensures var k := FirstTrue(Guards(d)); Classify(d, decode, encode) == Arm(k, d, decode, encode)
  {
    var gs := Guards(d);
    var k := FirstTrue(gs);
    assert |gs| == 4;
    if k == 0 {
      assert gs[0];
    } else if k == 1 {
      assert !gs[0] && gs[1];
    } else if k == 2 {
      assert !gs[0] && !gs[1] && gs[2];
    } else if k == 3 {
      assert !gs[0] && !gs[1] && !gs[2] && gs[3];
    } else {
      assert !gs[0] && !gs[1] && !gs[2] && !gs[3];
    }
  }

  // ---------------------------------------------------------------------------
  // Properties of the classification
  // ---------------------------------------------------------------------------

  /** A body that does not decode fails at once, with the decoder's message; nothing else is looked at. */
  lemma InvalidBodyFails(body: string, decode: string -> Decoded, encode: Json -> string)
    requires decode(body).DecodeError?
    ensures GetSuggestions(Received(body), decode, encode)
         == Failed(InvalidJsonPrefix + decode(body).message)
  {
  }

  /**
   * When the generated text is set it alone decides the outcome: two replies
   * with the same text classify alike, whatever their `error`, `promptFeedback`
   * and `finishReason`, and whatever the encoder.
   */
  lemma NestedTextDecides(d1: Json, d2: Json, text: Json, decode: string -> Decoded,
                           e1: Json -> string, e2: Json -> string)
    requires Get(d1, TextPath) == Some(text)
    requires Get(d2, TextPath) == Some(text)
    ensures Classify(d1, decode, e1) == Classify(d2, decode, e2)
  {
  }

  /** Generated text that does not decode fails with the fixed message. */
  lemma NestedTextNotJson(d: Json, s: string, decode: string -> Decoded, encode: Json -> string)
    requires Get(d, TextPath) == Some(String(s))
    requires decode(s).DecodeError?
    ensures Classify(d, decode, encode) == Failed(InvalidContentMessage)
  {
    assert Classify(d, decode, encode) == TextArm(d, decode);
    assert StringArgument(String(s)) == Some(s);
  }

  /**
   * Decoded generated text is returned unchanged when it is an array, whatever
   * its length and whatever fields its items have; any other value is a
   * TypeError from the `array` return type.
   */
  lemma NestedValueReturned(d: Json, s: string, v: Json, decode: string -> Decoded, encode: Json -> string)
    requires Get(d, TextPath) == Some(String(s))
    requires decode(s) == Decoded(v)
    ensures IsArray(v) ==> Classify(d, decode, encode) == Returned(v)
    ensures !IsArray(v) ==> Classify(d, decode, encode) == Failed(ReturnTypeMessage(v))
  {
    assert Classify(d, decode, encode) == TextArm(d, decode);
    assert StringArgument(String(s)) == Some(s);
  }

  /**
   * Generated text that is not a string: a number or a boolean is decoded from
   * its string form (true as "1", false as ""), an array is a TypeError from
   * `json_decode`.
   */
  lemma NestedTextNotString(d: Json, text: Json, decode: string -> Decoded, encode: Json -> string)
    requires Get(d, TextPath) == Some(text)
    requires !text.String?
    ensures IsArray(text) ==> Classify(d, decode, encode) == Failed(DecodeArgumentMessage(text))
    ensures text.Int? ==> Classify(d, decode, encode) == DecodeGenerated(IntToString(text.i), decode)
    ensures text == Bool(true) ==> Classify(d, decode, encode) == DecodeGenerated("1", decode)
    ensures text == Bool(false) ==> Classify(d, decode, encode) == DecodeGenerated("", decode)
  {
  }

  /**
   * With no generated text and a top-level `error` set, the whole decoded
   * reply is returned as it is (it is an object, so the return type holds).
   */
  lemma VendorErrorReturned(d: Json, decode: string -> Decoded, encode: Json -> string)
    requires Get(d, TextPath).None?
    requires Get(d, ErrorPath).Some?
    ensures d.Object?
    ensures Classify(d, decode, encode) == Returned(d)
  {
  }

  /**
   * A block reason is looked at before the finish reason: the message carries
   * the reason and the encoded ratings, or "N/A" when the ratings are not set.
   */
  lemma PromptBlockedFirst(d: Json, decode: string -> Decoded, encode: Json -> string)
    requires Get(d, TextPath).None? && Get(d, ErrorPath).None?
    requires Get(d, BlockReasonPath).Some?
    ensures Classify(d, decode, encode) == Failed(
      PromptBlockedPrefix + Interpolate(Get(d, BlockReasonPath).value) + ". Safety Ratings: "
      + (if Get(d, PromptRatingsPath).Some? then encode(Get(d, PromptRatingsPath).value) else "N/A"))
  {
  }

  /**
   * Past the first three conditions, only the exact string "SAFETY" as finish
   * reason gives the response-blocked failure; anything else, a lower-case
   * "safety" included, is an unexpected format.
   */
  lemma OnlyExactSafety(d: Json, decode: string -> Decoded, encode: Json -> string)
    requires Get(d, TextPath).None? && Get(d, ErrorPath).None? && Get(d, BlockReasonPath).None?
    ensures Classify(d, decode, encode).Failed?
    ensures Get(d, FinishReasonPath) == Some(String("SAFETY"))
        <==> Classify(d, decode, encode) == ResponseBlockedArm(d, encode)
    ensures Get(d, FinishReasonPath) != Some(String("SAFETY"))
        <==> Classify(d, decode, encode) == Failed(UnexpectedFormatMessage)
  {
    var m := ResponseBlockedArm(d, encode).message;
    assert |m| > |UnexpectedFormatMessage|;
  }

  /**
   * A `RequestException` becomes a failure with the fixed prefix and the
   * exception's message; with no reply, that is the whole message.
   */
  lemma RequestFailureMessage(m: string, response: Option<string>, decode: string -> Decoded, encode: Json -> string)
    ensures var r := GetSuggestions(RequestFailed(m, response), decode, encode);
      r.Failed? && r.message[..|RequestFailedPrefix|] == RequestFailedPrefix
    ensures response.None? ==>
      GetSuggestions(RequestFailed(m, response), decode, encode)
        == Failed(RequestFailedPrefix + ConnectionErrorPrefix + m)
  {
    var detail := ConnectionErrorMessage(m, response, decode);
    assert GetSuggestions(RequestFailed(m, response), decode, encode) == Failed(RequestFailedPrefix + detail);
    assert (RequestFailedPrefix + detail)[..|RequestFailedPrefix|] == RequestFailedPrefix;
    if response.None? {
      ConnectionErrorParts(m, response, decode);
      assert RequestFailedPrefix + detail == RequestFailedPrefix + ConnectionErrorPrefix + m;
    }
  }

  /**
   * With a reply body that does not decode, or carries no `error.message`,
   * the body follows the exception's message and no ` | API Error:` part is added.
   */
  lemma RequestFailureWithBody(m: string, body: string, decode: string -> Decoded, encode: Json -> string)
    requires decode(body).DecodeError? || Get(decode(body).value, ErrorMessagePath).None?
    ensures GetSuggestions(RequestFailed(m, Some(body)), decode, encode)
        == Failed(RequestFailedPrefix + ConnectionErrorPrefix + m + " | Response: " + body)
  {
    var detail := ConnectionErrorMessage(m, Some(body), decode);
    assert GetSuggestions(RequestFailed(m, Some(body)), decode, encode) == Failed(RequestFailedPrefix + detail);
    ConnectionErrorParts(m, Some(body), decode);
    assert RequestFailedPrefix + detail
        == RequestFailedPrefix + ConnectionErrorPrefix + m + " | Response: " + body;
  }

  /** With `error.message` set in the reply body, it follows the body as ` | API Error: `. */
  lemma RequestFailureWithApiError(m: string, body: string, details: Json, message: Json,
                                   decode: string -> Decoded, encode: Json -> string)
    requires decode(body) == Decoded(details)
    requires Get(details, ErrorMessagePath) == Some(message)
    ensures GetSuggestions(RequestFailed(m, Some(body)), decode, encode)
        == Failed(RequestFailedPrefix + ConnectionErrorPrefix + m + " | Response: " + body
                  + " | API Error: " + Interpolate(message))
  {
    var detail := ConnectionErrorMessage(m, Some(body), decode);
    assert GetSuggestions(RequestFailed(m, Some(body)), decode, encode) == Failed(RequestFailedPrefix + detail);
    ConnectionErrorParts(m, Some(body), decode);
    assert RequestFailedPrefix + detail
        == RequestFailedPrefix + ConnectionErrorPrefix + m + " | Response: " + body
           + " | API Error: " + Interpolate(message);
  }

  /** The three shapes of the RequestException detail. */
  lemma ConnectionErrorParts(m: string, response: Option<string>, decode: string -> Decoded)
    ensures response.None? ==> ConnectionErrorMessage(m, response, decode) == ConnectionErrorPrefix + m
    ensures response.Some? && (decode(response.value).DecodeError?
            || Get(decode(response.value).value, ErrorMessagePath).None?) ==>
      ConnectionErrorMessage(m, response, decode) == ConnectionErrorPrefix + m + " | Response: " + response.value
    ensures response.Some? && decode(response.value).Decoded?
            && Get(decode(response.value).value, ErrorMessagePath).Some? ==>
      ConnectionErrorMessage(m, response, decode)
        == ConnectionErrorPrefix + m + " | Response: " + response.value
           + " | API Error: " + Interpolate(Get(decode(response.value).value, ErrorMessagePath).value)
  {
    if response.Some? {
      var body := response.value;
      var tail := ApiErrorText(decode(body));
      assert ConnectionErrorMessage(m, response, decode)
          == ConnectionErrorPrefix + m + (" | Response: " + body + tail);
      Regroup(ConnectionErrorPrefix, m, " | Response: ", body, tail);
    }
  }

  /** Regrouping a concatenation of five strings. */
  lemma Regroup(a: string, b: string, c: string, d: string, e: string)
    ensures a + b + (c + d + e) == a + b + c + d + e
    ensures a + b + c + d + "" == a + b + c + d
  {
  }

  /** Any other exception is passed on with its message unchanged. */
  lemma OtherFailurePassedOn(m: string, decode: string -> Decoded, encode: Json -> string)
    ensures GetSuggestions(OtherFailure(m), decode, encode) == Failed(m)
  {
  }
}
