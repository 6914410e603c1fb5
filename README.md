# Gemini content suggestions: reply classification and the store endpoint

This project models the core of a small Laravel service. The service takes a topic from a client
and asks Google's Gemini `generateContent` endpoint (model `gemini-2.0-flash`) for journalistic
content suggestions. It sorts the reply into a returned array or an exception, stores each
successful result as one row, and answers 200, 400 or 500.

Modules, one per source file plus two helpers:

- `Wrappers` (`wrappers.dfy`): `Option` and `Result`.
- `Json` (`json.dfy`): a decoded JSON value as PHP sees it after `json_decode($s, true)`. Also
  PHP's `isset($v['a'][0]['b'])` as a walk along a path (a missing offset, a non-container and a
  `null` all count as "not set"), and the PHP conversions the code relies on: integer to decimal
  text, string interpolation, coercion of a `string` argument, and PHP's type names.
- `Services` (`content_suggestion_service.dfy`): the service constructor's key check and URL, and
  `getSuggestions` from the end of the HTTP request on. The classification is a pure function
  `Classify` over the decoded reply. `json_decode` and `json_encode` are the parameters `decode`
  and `encode`. The way the HTTP request ended is the `Transport` parameter.
- `Requests` (`store_suggestion_request.dfy`): `authorize`, `rules` and `messages`. The rules are
  data, and `FailedRules` evaluates them for one field the way Laravel does: a failed `required`
  stops the field, and other rules are skipped for a missing field or a blank string.
- `Controllers` (`suggestion_controller.dfy`): the `SuggestionController` class. Its `records`
  field is the suggestions table, an append-only `seq<Record>`. `Store` is the endpoint. A ghost
  log of calls and the invariant `Valid()` tie the table to the 200 responses.

Where the obvious intent (three items with `title` and `content`, a 500 for a vendor error) and the code differ, the model follows the code:

- The code returns any decoded array. It does not check for three items with `title` and
  `content`.
- A top-level vendor `error` is returned as data, so the controller answers 400, not 500.
- A `null` value for `error` counts as absent (`isset`), so `{"error": null}` is stored with 200.
- `empty()` also rejects the API key `"0"`.
- A prompt must not be blank: `"   "` fails `required` although it is 3 characters long.

## Model

| member | source | states |
|---|---|---|
| `Services.KeyFromEnvironment` | app/Services/ContentSuggestionService.php:18 | An unset variable (`getenv` gives false) becomes the empty key; a set one is kept as is |
| `Services.ContentSuggestionService.Create` | app/Services/ContentSuggestionService.php:15-27 | Construction fails, with the fixed message, exactly when the key is `""` or `"0"`; otherwise a fresh service holds the key and the URL built from it |
| `Services.ContentSuggestionService.Init` | app/Services/ContentSuggestionService.php:18-26 | Only a key that passes the `empty()` check can be held; the service holds that key and the URL built from it |
| `Services.ApiUrl` | app/Services/ContentSuggestionService.php:24-26 | The URL is the fixed `gemini-2.0-flash:generateContent?key=` prefix followed by the key, unencoded |
| `Services.ApiUrlInjective` | app/Services/ContentSuggestionService.php:26 | Different keys give different URLs |
| `Json.Child` | app/Services/ContentSuggestionService.php:95 | One PHP offset access finds something only inside an array; an index on an object finds exactly the value under the index's decimal key, as `json_decode` stores "0" as 0 |
| `Json.Get` | app/Services/ContentSuggestionService.php:95 | `isset` on a path holds exactly when the walk reaches a value that is not null |
| `Json.WalkAppend` | app/Services/ContentSuggestionService.php:95 | Walking a concatenated path is walking the first part, then the second from where it ended |
| `Json.GetPrefix` | app/Services/ContentSuggestionService.php:95 | A set path has every proper prefix set, and each of those values is an array |
| `Json.NatToString` | app/Services/ContentSuggestionService.php:109 | The decimal form of a number is non-empty digits with no leading zero |
| `Json.NatToStringRoundTrip` | app/Services/ContentSuggestionService.php:109 | Reading the decimal form back gives the number |
| `Json.NatToStringInjective` | app/Services/ContentSuggestionService.php:109 | Different numbers have different decimal forms |
| `Json.IntToString` | app/Services/ContentSuggestionService.php:109 | The decimal form of an integer is a "-" exactly when it is negative, then digits with no leading zero whose value is its magnitude |
| `Json.Interpolate` | app/Services/ContentSuggestionService.php:109 | Interpolation keeps a string as it is and turns an array into "Array" |
| `Json.StringArgument` | app/Services/ContentSuggestionService.php:97 | `json_decode` refuses an array (TypeError) and otherwise receives the value's string form |
| `Services.ReturnArray` | app/Services/ContentSuggestionService.php:29 | A return value of type `array` is returned unchanged; any other value is a TypeError naming its type |
| `Services.Classify` | app/Services/ContentSuggestionService.php:95-116 | Whatever branch is taken, a returned value is an array |
| `Services.GetSuggestions` | app/Services/ContentSuggestionService.php:86-133 | Only a received reply can produce a returned value, and that value is an array |
| `Services.FirstTrue` | app/Services/ContentSuggestionService.php:95-116 | The position found is the first true condition, or the end when none holds |
| `Services.FirstMatchWins` | app/Services/ContentSuggestionService.php:95-116 | The outcome is the branch of the first condition that holds, whatever the later conditions say |
| `Services.InvalidBodyFails` | app/Services/ContentSuggestionService.php:86-92 | A body that does not decode fails with "Invalid JSON response from Gemini API. JSON decode error: " and the decoder's message |
| `Services.NestedTextDecides` | app/Services/ContentSuggestionService.php:95-103 | When the generated text is set, it alone decides the outcome; `error`, `promptFeedback` and `finishReason` are not consulted |
| `Services.NestedTextNotJson` | app/Services/ContentSuggestionService.php:97-102 | Generated text that does not decode fails with "The content from Gemini is not valid JSON." |
| `Services.NestedValueReturned` | app/Services/ContentSuggestionService.php:97-103 | A decoded array is returned unchanged, with no length or shape check; a decoded scalar or null is a return-type TypeError |
| `Services.NestedTextNotString` | app/Services/ContentSuggestionService.php:96-97 | In coercive mode a number or boolean text is decoded from its string form ("1" for true, "" for false); an array text is a `json_decode` TypeError |
| `Services.VendorErrorReturned` | app/Services/ContentSuggestionService.php:104-105 | With no generated text and a top-level `error`, the whole decoded reply (an object) is returned as is |
| `Services.PromptBlockedFirst` | app/Services/ContentSuggestionService.php:106-109 | A block reason is checked before the finish reason; the message holds the reason and the encoded ratings, or "N/A" |
| `Services.OnlyExactSafety` | app/Services/ContentSuggestionService.php:110-116 | After the first three checks the outcome is a failure: response-blocked exactly when `finishReason` is the string "SAFETY", otherwise "Unexpected response format" |
| `Services.RequestFailureMessage` | app/Services/ContentSuggestionService.php:118-129 | A RequestException always fails with "Failed to get suggestions from Gemini API. " first; with no reply the message is that, "Error connecting to Gemini API: " and the exception's message |
| `Services.RequestFailureWithBody` | app/Services/ContentSuggestionService.php:120-126 | With a reply body that does not decode or has no `error.message`, the message ends with ` \| Response: ` and the body, and no ` \| API Error: ` part |
| `Services.RequestFailureWithApiError` | app/Services/ContentSuggestionService.php:120-126 | With `error.message` set in the reply body, the message ends with ` \| Response: `, the body, ` \| API Error: ` and that message |
| `Services.ConnectionErrorParts` | app/Services/ContentSuggestionService.php:119-126 | The detail text has exactly three shapes: no reply; a reply without `error.message`; a reply with it |
| `Services.OtherFailurePassedOn` | app/Services/ContentSuggestionService.php:130-133 | Any other exception is passed on with its message unchanged |
| `Requests.Authorize` | app/Http/Requests/StoreSuggestionRequest.php:9-12 | Every caller is authorised |
| `Requests.Rules` | app/Http/Requests/StoreSuggestionRequest.php:14-19 | `prompt` is the only field with rules |
| `Requests.Messages` | app/Http/Requests/StoreSuggestionRequest.php:21-27 | Custom texts exist for exactly `prompt.required` ("A topic prompt is required.") and `prompt.string` ("The prompt must be a string.") |
| `Requests.FailedRules` | app/Http/Requests/StoreSuggestionRequest.php:17 | Every rule reported failed is one of the field's rules, was run, and rejects the value |
| `Requests.PromptFailuresAre` | app/Http/Requests/StoreSuggestionRequest.php:17 | An unfilled prompt fails `required` alone; a filled one fails exactly those of `string`, `min:3` and `max:255` it breaks |
| `Requests.Valid` | app/Http/Requests/StoreSuggestionRequest.php:14-19 | A request passes validation exactly when the prompt has no failed rule |
| `Requests.ValidIff` | app/Http/Requests/StoreSuggestionRequest.php:17 | A request is valid if and only if `prompt` is a non-blank string of 3 to 255 characters |
| `Requests.Prompt` | app/Http/Controllers/SuggestionController.php:21 | After validation, the topic is the prompt string, non-blank and 3 to 255 characters long |
| `Requests.MissingPrompt` | app/Http/Requests/StoreSuggestionRequest.php:17-24 | A missing prompt fails `required` alone, with "A topic prompt is required." |
| `Requests.NonStringPrompt` | app/Http/Requests/StoreSuggestionRequest.php:17-25 | A filled prompt that is not a string fails `string`, with "The prompt must be a string." |
| `Requests.PromptLength` | app/Http/Requests/StoreSuggestionRequest.php:17 | A non-blank string prompt fails only `min:3` below 3 characters or `max:255` above 255, with no custom message |
| `Requests.OnlyPromptConstrained` | app/Http/Requests/StoreSuggestionRequest.php:16-18 | Two requests with the same prompt are both valid or both invalid, whatever else they carry |
| `Controllers.ServerError` | app/Http/Controllers/SuggestionController.php:41-46 | The catch-all response has status 500 |
| `Controllers.Decide` | app/Http/Controllers/SuggestionController.php:23-46 | 400 exactly when the result has `error` set, with that value and the topic. 200 exactly when there is no error and the insert succeeds, with one row (topic, encoded result) and the result unchanged under `suggestions`. Otherwise 500 with the exception's message. At most one row, and a row only with 200 |
| `Controllers.SuggestionController.constructor` | app/Http/Controllers/SuggestionController.php:14-17 | The controller is given a service that passed its key check, keeps it, and starts from the existing table, with an empty call log |
| `Controllers.SuggestionController.Store` | app/Http/Controllers/SuggestionController.php:19-47 | Needs a valid request. Responds as `Decide` says for the service's outcome, appends exactly the rows `Decide` creates, and keeps the table-matches-log invariant |
| `Controllers.RowsMatchSuccesses` | app/Http/Controllers/SuggestionController.php:33-40 | The rows added over any run of calls are one per 200 response, in order, each with that call's topic |
| `Controllers.VendorErrorIs400` | app/Http/Controllers/SuggestionController.php:26-31 | A vendor `error` passed through by the service is answered 400 with that error, and no row is added |
| `Controllers.NullErrorIsStored` | app/Http/Controllers/SuggestionController.php:26 | Any result object whose `error` is null counts as no error, whatever else it holds: it is stored and answered 200 |

## Left out

- The Guzzle POST itself, the prompt text and the request body are network I/O. `Transport` stands for how the POST ended. The body asks for `application/json` output and lists four safety categories (harassment, hate speech, sexually explicit, dangerous content), each at `BLOCK_MEDIUM_AND_ABOVE`. Whether Gemini judges a topic journalistic, or answers in the topic's language, is upstream behaviour.
- `getenv` is process environment: the key arrives as an `Option<string>` argument to `Create`. The `Client` field of the service is not modelled.
- `error_log` calls are logging with no effect on the outcome.
- The internals of `json_decode` and `json_encode` are library code, so they are parameters. Floats, the nesting-depth limit and a failing `json_encode` are not modelled.
- Exception codes and the `previous` chain of the rethrown RequestException are not modelled; only messages are.
- Json.Interpolate: PHP also raises the warning "Array to string conversion" for an array. Laravel's error handler turns that warning into an exception, so an array block reason or API error message would end with that message instead. The model keeps PHP's "Array".
- Services.ReturnArray: the TypeError text uses the type names of PHP 8.0 to 8.2 ("bool"). Later versions print `true` or `false` instead.
- Json.Child: a word key on a list finds nothing. PHP would find an element for a numeric key, but no path here uses one.
- Json.Child: integer offsets into strings are not modelled. The paths do apply `[0]` to `candidates` and to `parts`, and PHP indexes a string there when either is a string. The `isset` result is the same, because the next step is always a word key, and a word key on a one-character string is not set.
- Json: objects are unordered maps, and lists are kept apart from objects. PHP has one ordered array type, so `{"0":"a"}` and `["a"]` decode to the same PHP value. Key order reaches `json_encode` in the stored row and in the 200 body. No proved property depends on this.
- Json: `Int` is unbounded. PHP's `json_decode` gives a 64-bit integer, or a float for larger numbers. No proved property depends on this.
- Laravel middleware is framework code: trimming strings and turning empty strings into null before validation are not modelled. So are the 422 response for a failed validation, the error-bag format, the default texts of `min` and `max`, response serialisation and the table's timestamps.
- Controllers.Decide: an insert that throws is assumed to leave no row.
- No "exactly 3 suggestions" property is stated: the code never checks it.
