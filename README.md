# Yandex.Direct v4 JSON client (yii2-direct-api), modelled in Dafny

The repository holds one Yii2 component, `DirectApi`, in two versions:
- `src/DirectApi.php` is the current client. It has a cache, a `_result` field and `clear()`.
- `DirectApi.php` at the root is the older client. It has no cache, decodes responses to objects and makes `apiQuery` return the response.

Both versions send every API method as one JSON envelope. The envelope is a map with the keys `method`, `param`, `locale`, `application_id` and `token`. Its string values are first re-encoded from ISO-8859-1 to UTF-8, and the result is POSTed to the live or sandbox endpoint. The decoded response then goes through one decision procedure:
- a false response throws;
- an error pair (`error_code` and `error_str`) is stored, and it throws when the code is fatal and the string is not the "no statistics" sentinel;
- otherwise the response's `data` is stored on the client.

The project has five modules:
- `Php` (php.dfy): the PHP primitives the client uses on byte strings. These are `utf8_encode`, `ucfirst`, string truthiness, integer-to-string conversion and `urlencode`, plus a containment predicate used to state what error messages mention.
- `JsonValue` (json_value.dfy): JSON values as PHP sees them after decoding. It covers truthiness under an associative decode (`Truthy`) and under an object decode (`TruthyAsObject`), the `.` string conversion under each decode (a stdClass object has no string form), reading a key, `unset` of a key, and the values that are written in the one form a PHP value has (`WellFormed`).
- `Protocol` (protocol.dfy): what both versions share. This is the endpoint choice, the authorization link and URL, the request envelope, `utf8`, the argument choice of `__call`, the error classifier, `getErrorFull`, and the exception messages: a datatype `Message` of their parts, and `MessageText`, the bytes each one spells out.
- `DirectApi` (direct_api.dfy): the current client.
- `LegacyDirectApi` (legacy_direct_api.dfy): the older client.

In `DirectApi` and `LegacyDirectApi`, `apiQuery` is first stated as a function of the client's state (`Query`), and its properties are proved as lemmas about that function. The class `Client` then holds the component's fields, and its methods update them step by step as the PHP does. `Client.ApiQuery` is proved to leave exactly the state, cache and outcome that `Query` gives. `Query` is split as the PHP is: the cache lookup or POST (`FetchResponse`, current client only), the handling of the response (`Answer`), the error pair branch (`ErrorReaction`) and the end of the call (`Finish`), each matched by one method of `Client`.

The environment is abstract:
- The JSON library is a pair of functions, `Codec(encode, decode)`. Where a property needs `encode` to be injective, the lemma requires it.
- The HTTP transport is a function argument from the posted body to a `Reply`: either the response body or a transfer error.
- The application's cache is the field `store`, a map from the key `[__CLASS__, cachePrefix, body]` to the stored value and its duration.
- The ghost field `posted` records every body sent to the transport.

Where this model and a plain reading of the component's documentation differ, the model follows the code:
- In the current client, `getResult()` returns `_data`, not `_result`. `_result` can be written but never read back, and `clear()` does not reset it.
- `utf8` re-encodes the top-level strings of the envelope too (`method`, `locale`, `application_id`, `token`). It is not idempotent (`Utf8NotIdempotent`).
- In the current client an empty JSON object decodes to an empty array, which is false, so such a response throws. In the older client it decodes to an object, which is true, so it does not throw.
- A true scalar response without an error pair makes the current client fail in `unset($result['data'])`. PHP 8 raises an Error for that, modelled as the failure `OffsetError`.
- In the older client an `error_str` that is a JSON object is a stdClass object. It is not the sentinel, so with a fatal code the call builds getErrorFull, and PHP raises an Error converting the object to a string. This is the failure `ConversionError`, not the request error.
- The classifier follows PHP 8's loose comparisons:
  - An `error_code` of `true`, or a string holding the decimal form of a fatal code, counts as fatal.
  - An `error_str` of `true` equals the sentinel, so it never throws.

## Model

| member | source | states |
|---|---|---|
| Php.Utf8Encode | src/DirectApi.php:555 | utf8_encode at most doubles the length and leaves ASCII strings unchanged |
| Php.Utf8EncodeInjective | src/DirectApi.php:555 | two different ISO-8859-1 strings never give the same UTF-8 string |
| Php.Utf8EncodeNotIdempotent | src/DirectApi.php:555 | some string changes again when utf8_encode is applied a second time |
| Php.Ucfirst | src/DirectApi.php:570 | ucfirst keeps the length and the tail, turns a leading lower-case letter into the same letter in upper case (32 less) and leaves any other first byte alone |
| Php.UcfirstIdempotent | src/DirectApi.php:570 | applying ucfirst a second time changes nothing |
| Php.DecimalString | src/DirectApi.php:523 | the string form of an integer is never empty and starts with "-" exactly when the integer is negative |
| Php.DecimalStringInjective | src/DirectApi.php:523 | different integers have different string forms |
| Php.StrTruthy | src/DirectApi.php:241 | a string is false exactly when it is "" or "0"; Php.DecimalStringTruthy relates it to integers |
| Php.DecimalStringTruthy | src/DirectApi.php:241 | the string form of an integer is true exactly when the integer is not 0 |
| Php.UrlEncode | src/DirectApi.php:222-225 | urlencode writes only unreserved bytes, '+' and '%', and leaves a string made of unreserved bytes unchanged |
| Php.UrlEncodeInjective | src/DirectApi.php:222-225 | different strings have different urlencoded forms, so every value in the authorization link can be read back |
| JsonValue.Field | src/DirectApi.php:537 | reading a key gives null unless the value is a map holding that key with that value, and on a map it gives the value of the first member with the key |
| JsonValue.FieldOf | src/DirectApi.php:537 | the value read is that of the first member with the key, and null when no member has it |
| JsonValue.Isset | src/DirectApi.php:521 | `isset($v[key])`: the key reads a value other than null; JsonValue.IssetSpec states it in terms of the members |
| JsonValue.IssetSpec | src/DirectApi.php:521 | isset holds exactly when the value is a map whose first member with the key has a value other than null |
| JsonValue.Truthy | src/DirectApi.php:517 | PHP's conversion to boolean after the associative decode: null, false, 0, "", "0" and empty arrays are false; its consequences are stated by DirectApi.EmptyResponseThrows |
| JsonValue.TruthyAsObject | DirectApi.php:407 | PHP's conversion to boolean after the object decode: a stdClass object is true even when empty; LegacyDirectApi.ObjectResponseIsNeverEmpty states the consequence |
| JsonValue.ToPhpString | src/DirectApi.php:425 | PHP's `.` conversion after the associative decode: null and false give "", true "1", integers their decimal form, arrays "Array"; Protocol.ErrorFullNamesString states what getErrorFull then contains |
| JsonValue.ToPhpStringAsObject | DirectApi.php:352 | after the object decode the conversion fails exactly for a stdClass object, and otherwise agrees with ToPhpString |
| JsonValue.Unset | src/DirectApi.php:538 | `unset($v['data'])`: drops the key from a map and leaves anything else alone; its properties are JsonValue.UnsetSpec |
| JsonValue.CanUnset | src/DirectApi.php:538 | whether `unset($v['data'])` runs: PHP 8 raises an Error for true, an integer or a string; JsonValue.CanUnsetSpec states what follows |
| JsonValue.CanUnsetSpec | src/DirectApi.php:538 | among true values only maps and lists can be unset from, and after an unset that runs the key is no longer set |
| JsonValue.WithoutSpec | src/DirectApi.php:538 | dropping a key removes it, keeps every other key's value and keeps exactly the members with other keys |
| JsonValue.UnsetSpec | src/DirectApi.php:538 | unset of a key: afterwards the key reads null, every other key reads as before, a map keeps exactly its other members and a non-map is unchanged |
| Protocol.AuthorizeLink | src/DirectApi.php:222-225 | the endpoint, "?" and the http_build_query of response_type and client_id; Protocol.AuthorizeLinkSpec spells it out |
| Protocol.ApiUrl | src/DirectApi.php:214 | the sandbox URL is chosen exactly when useSandbox is set |
| Protocol.HttpBuildQuery | src/DirectApi.php:222-225 | the query string is empty exactly when every value is null |
| Protocol.HttpBuildQueryTwo | src/DirectApi.php:222-225 | two pairs whose first value is not null give the first field, then "&" and the second field unless the second value is null |
| Protocol.AuthorizeLinkSpec | src/DirectApi.php:222-225 | the link is the endpoint, "?", response_type=… and, when the client id is not null, "&client_id=…", with values url-encoded |
| Protocol.AuthorizeUrl | src/DirectApi.php:239-242 | the URL starts with the link, is longer exactly when the state is a true string ('' and '0' give the bare link) and then continues with "&state=" and the state |
| Protocol.Utf8 | src/DirectApi.php:549-559 | utf8 keeps the shape of its input: same kinds, same lengths, same keys, at every depth |
| Protocol.Utf8Value | src/DirectApi.php:551-556 | one member's value keeps its shape through utf8 |
| Protocol.Utf8KeepsAscii | src/DirectApi.php:549-559 | a value whose strings are all ASCII comes out of utf8 unchanged |
| Protocol.Utf8Injective | src/DirectApi.php:549-559 | utf8 never maps two different values to the same value |
| Protocol.Utf8NotIdempotent | src/DirectApi.php:549-559 | utf8 applied twice differs from utf8 applied once on some input |
| Protocol.Envelope | src/DirectApi.php:485-491 | the envelope with the keys method, param, locale, application_id and token in that order; Protocol.EnvelopeInjective and Protocol.EnvelopeWellFormed state its properties |
| Protocol.EnvelopeWellFormed | src/DirectApi.php:485-494 | the envelope, before and after utf8, is written in the one form a PHP array has when its values are |
| Protocol.SameShapeKeepsWellFormed | src/DirectApi.php:549-559 | a value with the shape of a well-formed value is well formed, so utf8 keeps values well formed |
| Protocol.EnvelopeInjective | src/DirectApi.php:485-491 | two envelopes are equal exactly when method, params, locale, application id and token are |
| Protocol.RequestInjective | src/DirectApi.php:485-494 | the re-encoded envelopes are equal exactly when method, params, locale, application id and token are |
| Protocol.FatalCodeStringsAreDecimal | src/DirectApi.php:523 | a decimal string counts as a fatal code exactly when its number is in {53, 54, 58, 510, 251, 513} |
| Protocol.IsFatalCode | src/DirectApi.php:523 | `in_array(code, [53, 54, 58, 510, 251, 513])` under PHP 8's loose comparison: one of those integers, true, or the decimal string of one of them; Protocol.FatalCodeStringsAreDecimal states the string case |
| Protocol.IsSentinel | src/DirectApi.php:523 | `error_str == sentinel` under loose comparison: the sentinel string or true; Protocol.SentinelNeverFatal states the consequence |
| Protocol.Classify | src/DirectApi.php:521-529 | the error pair check of apiQuery; Protocol.ClassifySpec states its three verdicts |
| Protocol.ClassifySpec | src/DirectApi.php:521-529 | the classifier passes exactly when error_code or error_str is unset. It is fatal exactly when both are set, the string is not the sentinel and the code is fatal. Otherwise it reports the pair as read |
| Protocol.SentinelNeverFatal | src/DirectApi.php:523 | the "no statistics" string is never fatal, whatever the code |
| Protocol.ErrorFull | src/DirectApi.php:423-426 | code, string and detail joined by single spaces; Protocol.ErrorFullNamesString states what it contains |
| Protocol.LoginSuffix | src/DirectApi.php:524 | " {login}." when the login is true, nothing otherwise; Protocol.RequestErrorNames states the message it ends up in |
| Protocol.CallParams | src/DirectApi.php:569 | the first argument of __call, or an empty array without one; DirectApi.Client.Call uses it |
| Protocol.ErrorFullNamesString | src/DirectApi.php:423-426 | getErrorFull contains the error string |
| Protocol.CannotOpenNames | src/DirectApi.php:518 | the "cannot open" message contains the API URL, the request part and the login |
| Protocol.RequestErrorNames | src/DirectApi.php:524-525 | the request error message contains the method, the full error text and its tail |
| Protocol.MessageText | src/DirectApi.php:518-525 | the bytes of each exception text: a "cannot open" text starts with "Не удается открыть адрес: " and a request error with "Запрос "; the exact texts are stated by the EmptyResponseMessage and FatalMessage rows |
| Protocol.MessageKindsDiffer | src/DirectApi.php:518-525 | a "cannot open" text never equals a request error text |
| DirectApi.GetCacheKey | src/DirectApi.php:290-297 | the key [__CLASS__, cachePrefix, body]; DirectApi.CacheKeyIdentifiesRequest states what it separates |
| DirectApi.CacheHit | src/DirectApi.php:501-502 | a stored entry is used only when it is not false, since the cache reads a missing key as false; DirectApi.FetchPostsUnlessCacheHit states the consequence |
| DirectApi.FetchPostsUnlessCacheHit | src/DirectApi.php:499-515 | a call posts, and then exactly its body, exactly when caching is off or the cache has no usable entry; a stored false is fetched again and replaced by the decoded response |
| DirectApi.Cleared | src/DirectApi.php:454-459 | the call state after clear(), as apiQuery runs it at src/DirectApi.php:484; DirectApi.ClearedSpec states it |
| DirectApi.ClearedSpec | src/DirectApi.php:454-459 | after clear() _data and the error fields are null, getErrorFull gives two spaces, _result is kept, and a second clear() changes nothing |
| DirectApi.RequestBody | src/DirectApi.php:485-494 | the posted body: the envelope, utf8, then Json::encode; DirectApi.RequestBodyIdentifiesCall states what it determines |
| DirectApi.RequestBodyIdentifiesCall | src/DirectApi.php:485-494 | with an encoder injective on well-formed values, two calls with well-formed values post the same body exactly when method, params, locale, application id and token agree |
| DirectApi.EmptyResponseMessage | src/DirectApi.php:518 | the exact text: "Не удается открыть адрес: ", the URL, ". (", the method, the encoded params, ")", " Логин: " and the login |
| DirectApi.FatalMessage | src/DirectApi.php:524-525 | the exact text: "Запрос ", the method, ": ", getErrorFull, the login part, then the method and the encoded params |
| DirectApi.FetchResponse | src/DirectApi.php:499-515 | the cache lookup, or one POST on a miss and the store of the decoded response when caching; the cache lemmas state its properties |
| DirectApi.Finish | src/DirectApi.php:537-541 | _data from the data key, then the unset, which fails for a scalar; DirectApi.SuccessStoresDataAndResult and DirectApi.ScalarResponseFails state it |
| DirectApi.ErrorReaction | src/DirectApi.php:521-529 | the pair is stored; a fatal one throws, any other one goes on with false; DirectApi.FatalErrorThrows and DirectApi.SuppressedErrorReturnsClient state it |
| DirectApi.Answer | src/DirectApi.php:517-541 | a false response throws, an error pair goes to ErrorReaction and anything else to Finish; the outcome lemmas state each branch |
| DirectApi.Query | src/DirectApi.php:482-542 | apiQuery as a function of the client's state: clear, then FetchResponse, then Answer; the lemmas of the module are about it |
| DirectApi.ThrowKeepsResult | src/DirectApi.php:482-542 | a call that throws leaves _data and _errorDetail null and _result as it was; the error fields stay null unless the error was fatal |
| DirectApi.EmptyResponseThrows | src/DirectApi.php:517-519 | a false response leaves the cleared state and throws the "cannot open" message, which names the URL, the method, the encoded params and the login |
| DirectApi.EmptyResponseMessageNames | src/DirectApi.php:518 | the "cannot open" message contains the URL, the method, the encoded params and the login |
| DirectApi.FatalErrorThrows | src/DirectApi.php:521-527 | a fatal error pair is stored in _error and _errorStr. The call throws "Запрос {method}: " + getErrorFull() + the login part + the method and params, a message that names the method and the error string |
| DirectApi.FatalMessageNames | src/DirectApi.php:524-525 | the fatal message contains the method, the error string and the encoded params |
| DirectApi.SuppressedErrorReturnsClient | src/DirectApi.php:521-541 | a non-fatal error pair returns the client with _data null, _result false and the pair kept in _error and _errorStr |
| DirectApi.SuccessStoresDataAndResult | src/DirectApi.php:537-541 | with no error pair, _data is response['data'] and _result is the response without data: that key reads null and every other key reads as in the response |
| DirectApi.ScalarResponseFails | src/DirectApi.php:537-538 | a true scalar response fails in unset, with the state cleared |
| DirectApi.CacheHitSkipsTransport | src/DirectApi.php:499-502 | on a cache hit the call handles the cached value: it does not depend on the transport, posts nothing and leaves the cache as it was |
| DirectApi.CacheMissStoresResponse | src/DirectApi.php:502-510 | on a miss the body is posted once, the call handles the decoded response, and that response is stored under [__CLASS__, cachePrefix, body] with cachingDuration, whatever it is |
| DirectApi.TransportIsUsedWithoutCaching | src/DirectApi.php:512-515 | without caching every call posts its body once, handles the decoded response and leaves the cache as it was; a transfer error throws from the cleared state |
| DirectApi.QueryFollowsFetch | src/DirectApi.php:499-515 | the cache a call leaves and the bodies it posts are those of its cache lookup or POST |
| DirectApi.RepeatedCallHitsCache | src/DirectApi.php:499-511 | after a call found a response other than false, the same call again posts nothing, leaves the cache as it was and handles the cached value, which is the first call's response when that call missed |
| DirectApi.CacheKeyIdentifiesRequest | src/DirectApi.php:290-297 | with an encoder injective on well-formed values, two calls with well-formed values share a cache key exactly when prefix, method, params, locale, application id and token agree |
| DirectApi.Client.constructor | src/DirectApi.php:212-231 | init picks the API URL by the sandbox flag, builds the authorization link, takes the application language when no locale is set, and starts with caching off, duration 300, prefix "_directApi" and a null state |
| DirectApi.Client.GetAuthorizeUrl | src/DirectApi.php:239-242 | the authorization URL for the state |
| DirectApi.Client.Cache | src/DirectApi.php:279-284 | caching is turned on; the duration changes only for a true argument |
| DirectApi.Client.SetToken | src/DirectApi.php:304-308 | _token is set |
| DirectApi.Client.GetApiUrl | src/DirectApi.php:314-317 | returns _apiUrl |
| DirectApi.Client.GetData | src/DirectApi.php:323-326 | returns _data |
| DirectApi.Client.SetData | src/DirectApi.php:333-337 | _data is set |
| DirectApi.Client.GetResult | src/DirectApi.php:343-346 | returns _data, not _result |
| DirectApi.Client.SetResult | src/DirectApi.php:353-357 | _result is set |
| DirectApi.Client.GetError | src/DirectApi.php:363-366 | returns _error |
| DirectApi.Client.SetError | src/DirectApi.php:373-377 | _error is set |
| DirectApi.Client.GetLogin | src/DirectApi.php:383-386 | returns _login |
| DirectApi.Client.SetLogin | src/DirectApi.php:393-397 | _login is set |
| DirectApi.Client.SetErrorStr | src/DirectApi.php:404-408 | _errorStr is set |
| DirectApi.Client.GetErrorStr | src/DirectApi.php:414-417 | returns _errorStr |
| DirectApi.Client.GetErrorFull | src/DirectApi.php:423-426 | returns code, string and detail joined by spaces |
| DirectApi.Client.ClearErrors | src/DirectApi.php:432-438 | the three error fields become null |
| DirectApi.Client.ClearData | src/DirectApi.php:444-448 | _data becomes null |
| DirectApi.Client.Clear | src/DirectApi.php:454-459 | errors and _data become null, _result is kept |
| DirectApi.Client.ExecCurl | src/DirectApi.php:465-474 | one POST of the body: the reply is the transport's and the body is recorded |
| DirectApi.Client.Fetch | src/DirectApi.php:499-515 | the cache lookup or POST of a call: its result, the new cache and the posted bodies are those of FetchResponse |
| DirectApi.Client.HandleResponse | src/DirectApi.php:517-541 | the handling of the response leaves the state and outcome that Answer gives |
| DirectApi.Client.StoreErrorPair | src/DirectApi.php:521-528 | the pair is stored in _error and _errorStr; a fatal pair throws the request error built from getErrorFull, any other goes on with a false response, as ErrorReaction gives |
| DirectApi.Client.FinishCall | src/DirectApi.php:537-541 | _data is the response's data and _result the response without it, or the call fails in unset for a scalar, as Finish gives |
| DirectApi.Client.ApiQuery | src/DirectApi.php:482-542 | the new state, cache, outcome and posted bodies are those of Query on the old state; the configuration is unchanged |
| DirectApi.Client.Call | src/DirectApi.php:567-571 | __call is apiQuery with ucfirst of the name and the first argument, or [] without one |
| LegacyDirectApi.ErrorFullOf | DirectApi.php:350-353 | getErrorFull after the object decode fails exactly when the code, the string or the detail is a stdClass object, and otherwise equals Protocol.ErrorFull |
| LegacyDirectApi.ErrorsCleared | DirectApi.php:359-365 | the call state after clearErrors(), as apiQuery runs it at DirectApi.php:390; LegacyDirectApi.ErrorsClearedSpec states it |
| LegacyDirectApi.ErrorsClearedSpec | DirectApi.php:359-365 | after clearErrors() getErrorFull gives two spaces, _data is kept, and a second clearErrors() changes nothing |
| LegacyDirectApi.RequestBody | DirectApi.php:391-399 | the posted body: the envelope, utf8, then json_encode; LegacyDirectApi.RequestBodyIdentifiesCall states what it determines |
| LegacyDirectApi.RequestBodyIdentifiesCall | DirectApi.php:391-399 | with an encoder injective on well-formed values, two calls with well-formed values post the same body exactly when method, params, locale, application id and token agree |
| LegacyDirectApi.EmptyResponseMessage | DirectApi.php:408 | the exact text: "Не удается открыть адрес: ", the URL, ". (", the whole serialized request, ")", " Логин: " and the login |
| LegacyDirectApi.FatalMessage | DirectApi.php:414 | the exact text: "Запрос ", the method, ": ", getErrorFull and the login part, with no method and params after it |
| LegacyDirectApi.Finish | DirectApi.php:426-428 | _data from the data property, and the response returned; LegacyDirectApi.SuccessReturnsWholeResponse states it |
| LegacyDirectApi.ErrorReaction | DirectApi.php:411-418 | the pair is stored; a fatal one throws the request error, or the conversion Error when getErrorFull fails, and any other one goes on with false; LegacyDirectApi.FatalErrorThrows states it |
| LegacyDirectApi.Answer | DirectApi.php:407-428 | a false response throws, an error pair goes to ErrorReaction and anything else to Finish |
| LegacyDirectApi.Query | DirectApi.php:388-429 | apiQuery as a function of the client's state: clearErrors, one POST, then Answer; the lemmas of the module are about it |
| LegacyDirectApi.EveryCallPostsOnce | DirectApi.php:404 | every call posts its serialized envelope exactly once |
| LegacyDirectApi.ThrowKeepsData | DirectApi.php:388-429 | a call that throws leaves the previous _data in place; the error fields stay null unless the pair was fatal (a request error or the conversion Error) |
| LegacyDirectApi.ReturnsResponseOrFalse | DirectApi.php:404-428 | a call that returns gives back the decoded response or false |
| LegacyDirectApi.EmptyResponseThrows | DirectApi.php:407-409 | a false response (an empty object is not one) throws a message naming the URL, the whole serialized envelope and the login |
| LegacyDirectApi.ObjectResponseIsNeverEmpty | DirectApi.php:405-407 | an object response, even an empty one, never ends in the "cannot open" exception |
| LegacyDirectApi.FatalErrorThrows | DirectApi.php:411-415 | a fatal error pair is stored; an object error_str ends the call in the conversion Error of getErrorFull, and any other throws "Запрос {method}: " + getErrorFull() + the login part, a message that names the method and the error string |
| LegacyDirectApi.FatalMessageNames | DirectApi.php:414 | the fatal message contains the method and the error string |
| LegacyDirectApi.SuppressedErrorReturnsFalse | DirectApi.php:411-428 | a non-fatal error pair returns false with _data null and the pair kept |
| LegacyDirectApi.SuccessReturnsWholeResponse | DirectApi.php:426-428 | with no error pair the whole response is returned and _data is its data member, null for anything but an object |
| LegacyDirectApi.TransportFailureThrows | DirectApi.php:371-380 | a transfer error throws, and only the error fields have changed |
| LegacyDirectApi.Client.constructor | DirectApi.php:184-203 | init picks the API URL, builds the authorization link and falls back to the application language |
| LegacyDirectApi.Client.GetAuthorizeUrl | DirectApi.php:211-214 | the authorization URL for the state |
| LegacyDirectApi.Client.SetToken | DirectApi.php:251-255 | _token is set |
| LegacyDirectApi.Client.GetApiUrl | DirectApi.php:261-264 | returns _apiUrl |
| LegacyDirectApi.Client.GetData | DirectApi.php:270-273 | returns _data |
| LegacyDirectApi.Client.SetData | DirectApi.php:280-284 | _data is set |
| LegacyDirectApi.Client.GetError | DirectApi.php:290-293 | returns _error |
| LegacyDirectApi.Client.SetError | DirectApi.php:300-304 | _error is set |
| LegacyDirectApi.Client.GetLogin | DirectApi.php:310-313 | returns _login |
| LegacyDirectApi.Client.SetLogin | DirectApi.php:320-324 | _login is set |
| LegacyDirectApi.Client.SetErrorStr | DirectApi.php:331-335 | _errorStr is set |
| LegacyDirectApi.Client.GetErrorStr | DirectApi.php:341-344 | returns _errorStr |
| LegacyDirectApi.Client.GetErrorFull | DirectApi.php:350-353 | returns code, string and detail joined by spaces, or the conversion failure when one of them is a stdClass object, as ErrorFullOf gives |
| LegacyDirectApi.Client.ClearErrors | DirectApi.php:359-365 | the error fields become null and _data is kept |
| LegacyDirectApi.Client.ExecCurl | DirectApi.php:371-380 | one POST of the body: the reply is the transport's and the body is recorded |
| LegacyDirectApi.Client.HandleResponse | DirectApi.php:407-428 | the handling of the response leaves the state and outcome that Answer gives |
| LegacyDirectApi.Client.StoreErrorPair | DirectApi.php:411-418 | the pair is stored in _error and _errorStr; a fatal pair throws the request error built from getErrorFull, or the conversion Error when getErrorFull fails, and any other goes on with false, as ErrorReaction gives |
| LegacyDirectApi.Client.FinishCall | DirectApi.php:426-428 | _data is the response's data member and the response itself is returned, as Finish gives |
| LegacyDirectApi.Client.ApiQuery | DirectApi.php:388-429 | the new state, outcome and posted bodies are those of Query on the old state; the configuration is unchanged |
| LegacyDirectApi.Client.Call | DirectApi.php:454-458 | __call is apiQuery with ucfirst of the name and the first argument, or [] without one |

## Left out

- getDirectToken (both versions): the OAuth exchange is one HTTP POST through another component. In the current version it reads object properties of an array. It is not modelled.
- The cURL setup in init and inside _execCurl is network I/O, so the transport is a function argument. `CException` is not imported, so a real transfer error would end in a class-not-found error rather than in that exception. The model records it only as the failure `TransportError`.
- JSON encoding and decoding are abstract. Yii's `Json::decode` throws on malformed input, and that case is not modelled. The decoder is a total function here.
- Cache expiry: the cache map records what was stored and for how long, but never drops an entry.
- The debug branch of apiQuery: `$debug` is private, starts at 0 and is never set, so that code never runs. It also reads a floating-point clock.
- The `@method` catalogue of the class comment lists API method names; it is documentation only.
- Floating-point numbers in JSON values, and nested arrays in http_build_query (the authorization link takes scalars only).
- Protocol.IsFatalCode: a numeric string in another form (" 53", "053", "53.0", "5.3e1") also equals a fatal code under PHP 8's loose comparison. The model recognises only the plain decimal form. PHP 7's comparison rules are not modelled.
- DirectApi.Client.Cache: the duration is an integer. Omitting it (null) is passed as 0, which PHP also treats as false. String and float durations are not modelled.
- Reading `$result['data']` on a string response: the model reads null. PHP versions differ on this read, but the call fails either way at the following unset.
- DirectApi.CacheKeyIdentifiesRequest: values that are not well formed are left out. An empty object and an empty list are the same PHP array, and so are a list and an object with the keys "0", "1", … in order; an object with a repeated key is no PHP value. No encoder separates those.
- The decoder is abstract and may return an object with a repeated key, which PHP's decoder never does (it keeps the last value); Field reads the first.
- The login is set by the application. A login that is a PHP object would make the messages fail to convert; the model reads any non-scalar login as an array ("Array").
- PHP notices, warnings and deprecations: the model follows PHP 8 with these reported and execution going on. Yii's error handler can turn them into an `ErrorException`, and then these paths throw where the model returns:
  - reading `data` from false after a suppressed error pair (src/DirectApi.php:537, DirectApi.php:426);
  - reading a missing `data` key or property of a response;
  - converting an array to a string, in getErrorFull or in the login part of a message;
  - `unset` on false, deprecated from PHP 8.1.
- The Errors the model records (`OffsetError`, `ConversionError`) are those of PHP 8; PHP 7's behaviour is not modelled.
- Names in http_build_query are written without url-encoding. The only names are `response_type` and `client_id`, which urlencode leaves unchanged.
- The authorization state is a string; other PHP types for it are not modelled.
