# Idswyft Python SDK: request/response contract layer

A Dafny model of the decision rules inside the Idswyft identity-verification
client (`sdks/python/idswyft/client.py`) and its error taxonomy
(`sdks/python/idswyft/exceptions.py`). The HTTP round trip is replaced by an
abstract outcome, `Transport.Exchange`. It is a timeout, a connection failure,
another transport failure, or an answer with a status code and a body that
either parsed as JSON or did not.

- `decimal.dfy` (`Decimal`): Python's `str()` of an integer. Error messages and
  pagination parameters use it. A parser reads it back.
- `json.dfy` (`Json`): an abstract JSON value with Python truthiness, `dict.get`
  and `str()`. Python's `None` is `JNull`.
- `exceptions.dfy` (`Exceptions`): `IdswyftError` and its seven subclasses as one
  record whose `Kind` names the class. Each class constructor is a function.
  The module also holds `__str__` and the closed set of things a call can raise
  (`Raised`).
- `transport.dfy` (`Transport`): `_make_request` after the request is issued
  (`Respond`) and `_raise_for_status` (`RaiseForStatus`).
- `bytes.dfy`, `files.dfy` (`Bytes`, `Files`): `hexdigest()` and `_prepare_file`.
  A file system map stands in for the disk.
- `forms.dfy` (`Forms`): the form data and query parameters each endpoint builds.
  Each endpoint has a declarative rule (`Is...Data`, `Is...Params`). Each has a
  builder method that inserts fields one at a time, as the client does.
- `webhook.dfy` (`Webhook`): `verify_webhook_signature`. HMAC-SHA256 is a
  parameter that returns a 32-byte digest.
- `client.dfy` (`Client`): the class `IdswyftClient`. Its configuration is fixed
  at construction. It keeps a log `sent` of the requests handed to its HTTP
  session. Its endpoint methods build a request, log it, and turn the exchange
  into their result. The module also holds the response unwraps and the
  `health_check` fallback.

Behaviours of the code that the model keeps as written:
- `get_verification_status` indexes `"verification"` without the
  `.get("verification", response)` fallback that `verify_document` and
  `verify_selfie` use. A response without that key raises `KeyError`.
- Not every optional argument is dropped when empty. `update_webhook` sends
  `events=[]` and `secret=""`, because it tests `is not None`.
  `start_verification` sends `sandbox=False` for the same reason.
- The client-level `sandbox` flag is stored, but no request carries it.

## Model

| member | source | states |
|---|---|---|
| `Client.IdswyftClient.Create` | sdks/python/idswyft/client.py:62-75 | an empty API key raises ValueError("API key is required") and creates no client; otherwise the key, the base URL with trailing '/' stripped, the timeout and the sandbox flag are stored, and no request has been sent |
| `Client.IdswyftClient.constructor` | sdks/python/idswyft/client.py:62-75 | defaults: base URL https://api.idswyft.com, timeout 30, sandbox false; fields as given, base URL normalised |
| `Client.RStripSlash` | sdks/python/idswyft/client.py:73 | the result is a prefix of the input, does not end in '/', and only '/' characters were removed |
| `Client.RStripSlashIdempotent` | sdks/python/idswyft/client.py:73 | normalising the base URL twice equals normalising it once |
| `Client.IdswyftClient.MakeRequest` | sdks/python/idswyft/client.py:86-127 | exactly one request is handed to the session, and the result is the classification of the exchange |
| `Transport.Respond` | sdks/python/idswyft/client.py:107-127 | success iff the status is 200 or 201; the parsed body is returned, or {"message": "Success"} when it did not parse; transport failures are always NetworkErrors; any other answer raises `RaiseForStatus(status, error data)` when the error data is a dictionary and AttributeError otherwise; every Idswyft error raised is well-formed |
| `Transport.ErrorData` | sdks/python/idswyft/client.py:114-118 | an unparseable error body becomes {"error": "Unknown error", "message": raw text} |
| `Transport.RaiseForStatus` | sdks/python/idswyft/client.py:129-152 | 400 gives Validation, 401 Authentication, 404 NotFound, 429 RateLimit, 500..599 Server, each iff; any other code gives a generic API error carrying that status, the body's "code" and "details"; every error except NotFound carries the body's "message" (default "API request failed"); a Validation error carries "field", a RateLimit error "retry_after", a NotFound error "resource" (default "Resource"); every error satisfies its class invariant |
| `Transport.ClassificationFollowsTable` | sdks/python/idswyft/client.py:135-152 | the raised kind agrees with a reference table (pinned codes, then the 5xx class of section 15.6 of RFC 9110, then generic) |
| `Transport.ClassificationIgnoresBody` | sdks/python/idswyft/client.py:131-152 | the kind depends on the status alone, whatever keys the error body holds |
| `Transport.UnnamedStatusIsGenericApiError` | sdks/python/idswyft/client.py:151-152 | an unnamed status (204, 302, 402, 600, ...) yields IdswyftAPIError with that status, the body's code and details, and its message |
| `Transport.MissingKeysTakeDefaults` | sdks/python/idswyft/client.py:131-147 | missing keys never fail: message "API request failed", resource "Resource", retry_after None, field None, code None; validation errors are always a list |
| `Transport.ValidationErrorsFromDetails` | sdks/python/idswyft/client.py:135-140 | `details` becomes the validation errors only when it is a list, otherwise [] |
| `Transport.NotFoundIgnoresMessage` | sdks/python/idswyft/client.py:143-145 | a 404 error depends only on the resource, never on the server's message |
| `Transport.ServerErrorPinsFiveHundred` | sdks/python/idswyft/client.py:149-150 | every 5xx (503 included) becomes a ServerError whose status_code is 500 |
| `Transport.UnparseableErrorKeepsText` | sdks/python/idswyft/client.py:115-118 | an error whose body is not JSON carries the raw text as its message (404 aside) |
| `Transport.TransportFailuresAreNetworkErrors` | sdks/python/idswyft/client.py:122-127 | timeout, connection and other transport failures raise NetworkError (no status, code "network_error"); the timeout message is "Request timed out after N seconds" where N reads back as the configured timeout; a connection failure says "Failed to connect to Idswyft API"; any other failure's message is "Network error: " followed by the failure's own text |
| `Transport.RateLimitScenario` | sdks/python/idswyft/client.py:146-148 | a 429 with retry_after 60 raises a RateLimitError carrying 60 and the server's message |
| `Exceptions.NewError` | sdks/python/idswyft/exceptions.py:11-17 | the base constructor stores message, status_code, error_code and details unchanged; the result is not an API error |
| `Exceptions.NewApiError` | sdks/python/idswyft/exceptions.py:33-35 | IdswyftAPIError adds nothing to the base constructor and is an API error |
| `Exceptions.NewAuthenticationError` | sdks/python/idswyft/exceptions.py:38-42 | pins 401 and "authentication_failed", keeps the message, is an API error |
| `Exceptions.NewValidationError` | sdks/python/idswyft/exceptions.py:45-52 | pins 400 and "validation_failed"; field stored as given; validation_errors is the given value when truthy, else [], so never None |
| `Exceptions.NewNetworkError` | sdks/python/idswyft/exceptions.py:55-59 | no status code, "network_error", and not an API error |
| `Exceptions.NewRateLimitError` | sdks/python/idswyft/exceptions.py:62-67 | pins 429 and "rate_limit_exceeded" and stores retry_after |
| `Exceptions.NewNotFoundError` | sdks/python/idswyft/exceptions.py:70-76 | pins 404 and "not_found", stores the resource, message "{resource} not found" |
| `Exceptions.NewServerError` | sdks/python/idswyft/exceptions.py:79-82 | pins 500 and "server_error" |
| `Exceptions.Str` | sdks/python/idswyft/exceptions.py:19-22 | the text starts "Idswyft API Error " exactly when the status code is truthy, and always ends with the rendered message |
| `Json.Render` | sdks/python/idswyft/exceptions.py:21-22 | `str()` of a scalar: an integer renders as a numeral that reads back as the integer, a string as itself, None as "None", booleans as "True"/"False" |
| `Exceptions.DefaultMessages` | sdks/python/idswyft/exceptions.py:41-82 | the default messages, the default resource "Resource" and the default retry_after None |
| `Exceptions.StrShowsStatus` | sdks/python/idswyft/exceptions.py:19-22 | `str(e)` shows a status code exactly when status_code is truthy, and the code shown reads back as the stored one |
| `Exceptions.StrEndsWithMessage` | sdks/python/idswyft/exceptions.py:19-22 | `str(e)` always ends with the message |
| `Exceptions.PinnedCodesAreShown` | sdks/python/idswyft/exceptions.py:19-22 | a NetworkError prints as "Idswyft Error: ..."; every subclass that pins a code prints it |
| `Exceptions.NotFoundStrNamesResource` | sdks/python/idswyft/exceptions.py:73-76 | a NotFound error prints "Idswyft API Error 404: {resource} not found" |
| `Decimal.IntToString` | sdks/python/idswyft/client.py:363 | `str(n)`: non-empty, a minus sign exactly for negatives, digits otherwise |
| `Decimal.ParseIntToString` | sdks/python/idswyft/client.py:363 | reading `str(n)` back gives n |
| `Decimal.IntToStringInjective` | sdks/python/idswyft/exceptions.py:21 | distinct integers print differently |
| `Files.PrepareFile` | sdks/python/idswyft/client.py:154-167 | the triple is (field, content, "application/octet-stream"); bytes are used unchanged, a str is read as a path, a stream gives what read() returns; an unreadable path raises OSError; any other type raises ValueError "Invalid file data type: ..." |
| `Files.SameContentSameUpload` | sdks/python/idswyft/client.py:154-165 | the same bytes via path, bytes or stream give the same upload triple |
| `Forms.StartVerificationData` | sdks/python/idswyft/client.py:184-186 | user_id always; sandbox whenever it is not None, False included |
| `Forms.SandboxFalseIsSent` | sdks/python/idswyft/client.py:184-186 | sandbox=False yields exactly {user_id, sandbox: False} |
| `Forms.DocumentData` | sdks/python/idswyft/client.py:224-233 | document_type always; verification_id, user_id, webhook_url only when truthy; metadata only when non-empty, as one JSON string |
| `Forms.DocumentDataDetermined` | sdks/python/idswyft/client.py:224-233 | the document form rules fix the form completely |
| `Forms.BackOfIdData` | sdks/python/idswyft/client.py:261-267 | verification_id and document_type always; metadata only when non-empty, JSON-encoded |
| `Forms.LiveCaptureData` | sdks/python/idswyft/client.py:295-303 | verification_id and live_image_data always; challenge_response when truthy; metadata when non-empty |
| `Forms.LiveTokenData` | sdks/python/idswyft/client.py:323-326 | verification_id always; challenge_type when truthy |
| `Forms.PageParams` | sdks/python/idswyft/client.py:361-365 | limit and offset only when non-zero, each sent as its decimal string |
| `Forms.CountSentAsItsString` | sdks/python/idswyft/client.py:362-365 | a count of 0 is omitted; a non-zero count is sent as a string that reads back as the count |
| `Forms.SelfieData` | sdks/python/idswyft/client.py:393-404 | starts empty; each of verification_id, reference_document_id, user_id, webhook_url only when truthy; metadata when non-empty |
| `Forms.ListParams` | sdks/python/idswyft/client.py:445-453 | status and user_id when truthy; limit and offset when non-zero, stringified |
| `Forms.ActivityParams` | sdks/python/idswyft/client.py:539-547 | limit and offset when non-zero, stringified; start_date and end_date when truthy |
| `Forms.RegisterWebhookData` | sdks/python/idswyft/client.py:568-572 | url always; events and secret only when truthy |
| `Forms.UpdateWebhookData` | sdks/python/idswyft/client.py:604-610 | url only when truthy; events and secret whenever not None, empty values included |
| `Forms.WebhookEmptyValues` | sdks/python/idswyft/client.py:604-610 | update_webhook keeps events=[] and secret="" but drops url=""; register_webhook drops empty events and secret |
| `Client.IdswyftClient.StartVerification` | sdks/python/idswyft/client.py:169-189 | one POST to /api/verify/start with the start form, no files or params; the result is the classified exchange |
| `Client.IdswyftClient.VerifyDocument` | sdks/python/idswyft/client.py:191-240 | a file that cannot be prepared raises before any request; otherwise one POST to /api/verify/document with the document form and the file under "document", and the result unwrapped |
| `Client.IdswyftClient.VerifyBackOfId` | sdks/python/idswyft/client.py:242-274 | same for /api/verify/back-of-id with the file under "back_of_id", result not unwrapped |
| `Client.IdswyftClient.LiveCapture` | sdks/python/idswyft/client.py:276-306 | one POST to /api/verify/live-capture with the live-capture form |
| `Client.IdswyftClient.GenerateLiveToken` | sdks/python/idswyft/client.py:308-329 | one POST to /api/verify/generate-live-token with the token form |
| `Client.IdswyftClient.GetVerificationHistory` | sdks/python/idswyft/client.py:344-367 | one GET to /api/verify/history/{user_id} with the page parameters (an empty dict when none) |
| `Client.IdswyftClient.VerifySelfie` | sdks/python/idswyft/client.py:369-411 | file errors raise before any request; otherwise one POST to /api/verify/selfie with the file under "selfie", result unwrapped |
| `Client.IdswyftClient.GetVerificationStatus` | sdks/python/idswyft/client.py:413-424 | one GET to /api/verify/status/{id}; the result is `response["verification"]` |
| `Client.IdswyftClient.ListVerifications` | sdks/python/idswyft/client.py:426-455 | one GET to /api/verify/list with the list parameters |
| `Client.IdswyftClient.GetApiActivity` | sdks/python/idswyft/client.py:520-549 | one GET to /api/developer/activity with the activity parameters |
| `Client.IdswyftClient.RegisterWebhook` | sdks/python/idswyft/client.py:551-574 | one POST to /api/webhooks/register with the registration form |
| `Client.IdswyftClient.UpdateWebhook` | sdks/python/idswyft/client.py:585-612 | one PUT to /api/webhooks/{id} with the update form |
| `Client.IdswyftClient.GetWebhookDeliveries` | sdks/python/idswyft/client.py:638-661 | one GET to /api/webhooks/{id}/deliveries with the page parameters |
| `Client.IdswyftClient.HealthCheck` | sdks/python/idswyft/client.py:672-683 | one GET to /api/health; the result passes through the NotFound fallback |
| `Client.UnwrapVerification` | sdks/python/idswyft/client.py:240 | errors pass through unchanged; a success body that is not a dictionary raises AttributeError from `.get` |
| `Client.RequireVerification` | sdks/python/idswyft/client.py:424 | errors pass through unchanged; a success body that is not a dictionary raises TypeError from indexing |
| `Client.UnwrapsCompared` | sdks/python/idswyft/client.py:411 | with a "verification" key both unwraps return its value; without it `.get` returns the whole response and indexing raises KeyError |
| `Client.StatusOfEmptySuccessRaises` | sdks/python/idswyft/client.py:423-424 | a 200 with no JSON body makes the status lookup raise KeyError while the defensive unwrap returns {"message": "Success"} |
| `Client.WrappedRecordIsUnwrapped` | sdks/python/idswyft/client.py:239-240 | a 200/201 body {"verification": record} yields the record |
| `Client.HealthCheckResult` | sdks/python/idswyft/client.py:679-683 | a successful response and every error it does not absorb pass through unchanged |
| `Client.HealthCheckAbsorbsOnlyNotFound` | sdks/python/idswyft/client.py:679-683 | the health check succeeds iff the request did or the server answered 404 with a dictionary body, then with {"status": "ok", "timestamp": ""}; every other error propagates unchanged |
| `Client.HealthCheckPropagates` | sdks/python/idswyft/client.py:678-680 | a 401 still raises AuthenticationError and a 5xx still raises ServerError |
| `Bytes.HexDigest` | sdks/python/idswyft/client.py:713-717 | two lower-case hex digits per digest byte |
| `Bytes.FromHexDigest` | sdks/python/idswyft/client.py:717 | the hex digest decodes back to the digest |
| `Webhook.VerifyWebhookSignature` | sdks/python/idswyft/client.py:685-722 | True only when all three inputs are non-empty |
| `Webhook.MatchesReference` | sdks/python/idswyft/client.py:705-722 | the result is exactly: all inputs non-empty and the signature, with every "sha256=" removed, equals the hex HMAC; the caught TypeError never changes that answer |
| `Webhook.EmptyInputsRejected` | sdks/python/idswyft/client.py:705-706 | any empty input gives False |
| `Webhook.SignedPayloadAccepted` | sdks/python/idswyft/client.py:708-720 | "sha256=" + the hex HMAC of the payload keyed by the secret is accepted |
| `Webhook.BareAndRepeatedPrefixAccepted` | sdks/python/idswyft/client.py:710 | the bare digest, and the digest after a repeated prefix, are accepted: every occurrence is removed, not only a leading one |
| `Webhook.AlteredDigestRejected` | sdks/python/idswyft/client.py:710-720 | changing any single character of the digest in a signed header gives False |
| `Webhook.NonAsciiSignatureRejected` | sdks/python/idswyft/client.py:719-722 | a non-ASCII signature gives False instead of raising |
| `Webhook.RemoveAll` | sdks/python/idswyft/client.py:710 | `replace(pat, "")`: a string shorter than the pattern is unchanged; the result is never longer and holds only characters of the input |
| `Webhook.RemoveAllAbsent` | sdks/python/idswyft/client.py:710 | a string lacking some character of the pattern is left unchanged by `replace` |
| `Webhook.RemovePrefix` | sdks/python/idswyft/client.py:710 | a leading "sha256=" is removed |
| `Webhook.DigestUnchanged` | sdks/python/idswyft/client.py:710 | a hex digest passes through the removal unchanged |

## Left out

- The HTTP session is not modelled. That covers `requests.Session`, the identification headers, the real round trip, the timeout, `close`, and the context manager. Each call takes the outcome as a `Transport.Exchange` argument.
- Joining the base URL and the endpoint (`urljoin`, section 5.2 of RFC 3986) is not modelled. A `Client.Request` records the endpoint path as the client passes it.
- JSON parsing is abstract: the body arrives as `Parsed(json)` or `Unparseable(text)`. JSON numbers are integers only, so float scores are not represented. `json.dumps(metadata)` is the value `JsonText(metadata)`, not its characters.
- `json.dumps(metadata)` raises TypeError when the metadata holds a value JSON cannot encode (client.py:233, 267, 303, 404). That happens before the file is read and before any request is sent. A `map<string, Json>` holds only encodable values, so the model cannot express this failure.
- `Json.Render` writes lists and dictionaries as the placeholders "[...]" and "{...}", not as Python's `repr`. So a list or dictionary resource makes `Exceptions.NewNotFoundError` give "[...] not found", where Python gives the value's repr. In the same way, `Exceptions.Str` of an error whose message is a list or dictionary differs from Python's text.
- `__repr__` of the errors is not modelled.
- HMAC-SHA256 is the function parameter `Webhook.Hmac`, not the algorithm. The timing safety of `hmac.compare_digest` is not modelled.
- Webhook signatures are plain strings, so a missing header (`None`) is not representable. Dafny strings cannot hold lone surrogates, so the UTF-8 encode failure path cannot occur.
- `Files.PrepareFile`: reading a file is a lookup in a map from path to bytes, and any failure to open is `OSError`. A stream is given by what `read()` returns, so the stream's position moving to its end is not modelled.
- The first `update_webhook` (client.py:457-469) is not modelled: the one at line 585 overrides it.
- Nine endpoints are pass-throughs with fixed arguments and no omission rules, and are outside the modelled core: `get_verification_results`, `register_developer`, `create_api_key`, `list_api_keys`, `revoke_api_key`, `list_webhooks`, `delete_webhook`, `test_webhook` and `get_usage_stats`.
- `types.py`, `__init__.py`, `setup.py`, the examples and the tests are not part of this model.
