/**
  The SDK's error taxonomy (exceptions.py): one record type for `IdswyftError`
  and its subclasses, a constructor function per class, `__str__`, and the
  Python exceptions a call can end in.
 */
module Exceptions {
  import opened Wrappers
  import opened Decimal
  import opened Json

  /** Which class an error belongs to, with the attributes only that class sets. */
  datatype Kind =
    | Base                                              // IdswyftError
    | Api                                               // IdswyftAPIError
    | Authentication                                    // IdswyftAuthenticationError
    | Validation(field: Json, validationErrors: Json)   // IdswyftValidationError
    | Network                                           // IdswyftNetworkError
    | RateLimit(retryAfter: Json)                       // IdswyftRateLimitError
    | NotFound(resource: Json)                          // IdswyftNotFoundError
    | Server                                            // IdswyftServerError

  /** The attributes every `IdswyftError` carries; `None` is `JNull`. */
  datatype IdswyftError = IdswyftError(
    kind: Kind,
    message: Json,
    statusCode: Option<int>,
    errorCode: Json,
    details: Json)

  /** Everything a client call can raise instead of returning. */
  datatype Raised =
    | Idswyft(error: IdswyftError)     // an IdswyftError subclass
    | ValueError(text: string)         // caller misuse: empty API key, unsupported file data
    | OSError(filename: string)        // a file path that cannot be opened
    | KeyError(key: string)            // `response[key]` on a dictionary without that key
    | TypeError                        // `response[key]` on a value that is not a dictionary
    | AttributeError(name: string)     // `value.get(...)` on a value that is not a dictionary

  /** A returned value, or what was raised instead. */
  datatype Result<+T> = Ok(value: T) | Err(raised: Raised)

  const AuthenticationMessage := JStr("Authentication failed - check your API key")
  const NetworkMessage := JStr("Network error occurred")
  const RateLimitMessage := JStr("Rate limit exceeded")
  const ServerMessage := JStr("Internal server error")
  const DefaultResource := JStr("Resource")

  /**
    The class invariant of each subclass: the status and error codes it pins,
    the list `validation_errors` that is never None, and the message a
    NotFound error derives from its resource.
   */
  predicate WellFormed(e: IdswyftError) {
    match e.kind
    case Base => true
    case Api => true
    case Authentication =>
      e.statusCode == Some(401) && e.errorCode == JStr("authentication_failed") && e.details == JNull
    case Validation(_, errors) =>
      e.statusCode == Some(400) && e.errorCode == JStr("validation_failed") && e.details == JNull
      && errors != JNull
    case Network =>
      e.statusCode == None && e.errorCode == JStr("network_error") && e.details == JNull
    case RateLimit(_) =>
      e.statusCode == Some(429) && e.errorCode == JStr("rate_limit_exceeded") && e.details == JNull
    case NotFound(resource) =>
      e.statusCode == Some(404) && e.errorCode == JStr("not_found") && e.details == JNull
      && e.message == JStr(Render(resource) + " not found")
    case Server =>
      e.statusCode == Some(500) && e.errorCode == JStr("server_error") && e.details == JNull
  }

  /** `isinstance(e, IdswyftAPIError)`: every kind but the base class and NetworkError. */
  predicate IsApiError(e: IdswyftError) {
    !e.kind.Base? && !e.kind.Network?
  }

  /** `IdswyftError(message, status_code, error_code, details)`. */
  function NewError(message: Json, statusCode: Option<int> := None, errorCode: Json := JNull,
                    details: Json := JNull): (e: IdswyftError)
    ensures e.kind == Base && !IsApiError(e)
    ensures e.message == message && e.statusCode == statusCode
    ensures e.errorCode == errorCode && e.details == details
  {
    IdswyftError(Base, message, statusCode, errorCode, details)
  }

  /** `IdswyftAPIError(...)`: the base constructor, unchanged. */
  function NewApiError(message: Json, statusCode: Option<int> := None, errorCode: Json := JNull,
                       details: Json := JNull): (e: IdswyftError)
    ensures e.kind == Api && IsApiError(e)
    ensures e.message == message && e.statusCode == statusCode
    ensures e.errorCode == errorCode && e.details == details
  {
    IdswyftError(Api, message, statusCode, errorCode, details)
  }

  function NewAuthenticationError(message: Json := AuthenticationMessage): (e: IdswyftError)
    ensures e.kind == Authentication && e.message == message
    ensures WellFormed(e) && IsApiError(e)
  {
    IdswyftError(Authentication, message, Some(401), JStr("authentication_failed"), JNull)
  }

  /** `validation_errors or []`: the given list when truthy, otherwise an empty list. */
  function NewValidationError(message: Json, field: Json := JNull, validationErrors: Json := JNull)
    : (e: IdswyftError)
    ensures e.kind.Validation? && e.message == message && e.kind.field == field
    ensures Truthy(validationErrors) ==> e.kind.validationErrors == validationErrors
    ensures !Truthy(validationErrors) ==> e.kind.validationErrors == JList([])
    ensures WellFormed(e) && IsApiError(e)
  {
    var errors := if Truthy(validationErrors) then validationErrors else JList([]);
    IdswyftError(Validation(field, errors), message, Some(400), JStr("validation_failed"), JNull)
  }

  function NewNetworkError(message: Json := NetworkMessage): (e: IdswyftError)
    ensures e.kind == Network && e.message == message
    ensures WellFormed(e) && !IsApiError(e)
  {
    IdswyftError(Network, message, None, JStr("network_error"), JNull)
  }

  function NewRateLimitError(message: Json := RateLimitMessage, retryAfter: Json := JNull)
    : (e: IdswyftError)
    ensures e.kind == RateLimit(retryAfter) && e.message == message
    ensures WellFormed(e) && IsApiError(e)
  {
    IdswyftError(RateLimit(retryAfter), message, Some(429), JStr("rate_limit_exceeded"), JNull)
  }

  /** The message is always "<resource> not found"; no other message is accepted. */
  function NewNotFoundError(resource: Json := DefaultResource): (e: IdswyftError)
    ensures e.kind == NotFound(resource)
    ensures WellFormed(e) && IsApiError(e)
  {
    IdswyftError(NotFound(resource), JStr(Render(resource) + " not found"), Some(404),
                 JStr("not_found"), JNull)
  }

  function NewServerError(message: Json := ServerMessage): (e: IdswyftError)
    ensures e.kind == Server && e.message == message
    ensures WellFormed(e) && IsApiError(e)
  {
    IdswyftError(Server, message, Some(500), JStr("server_error"), JNull)
  }

  const ApiPrefix := "Idswyft API Error "
  const PlainPrefix := "Idswyft Error: "

  /** `if self.status_code:` — a status code is shown only when present and non-zero. */
  predicate ShowsStatus(e: IdswyftError) {
    e.statusCode.Some? && e.statusCode.value != 0
  }

  /** `IdswyftError.__str__`. */
  function Str(e: IdswyftError): (s: string)
    ensures (|s| >= |ApiPrefix| && s[..|ApiPrefix|] == ApiPrefix) <==> ShowsStatus(e)
    ensures var m := Render(e.message); |m| <= |s| && s[|s| - |m|..] == m
  {
    var head := if ShowsStatus(e) then ApiPrefix + IntToString(e.statusCode.value) + ": " else PlainPrefix;
    var s := head + Render(e.message);
    assert s[|head|..] == Render(e.message);
    assert ShowsStatus(e) ==> s[..|ApiPrefix|] == ApiPrefix;
    assert !ShowsStatus(e) ==> s[8] == 'E' != ApiPrefix[8];
    s
  }

  /** The characters of `s` before its first ':' (all of `s` when it has none). */
  function UpToColon(s: string): (r: string)
    ensures |r| <= |s| && r == s[..|r|]
  {
    if s == [] || s[0] == ':' then [] else [s[0]] + UpToColon(s[1..])
  }

  /** The status code a reader finds in a rendered error, if it shows one. */
  function StatusShown(text: string): Option<int> {
    if |text| >= |ApiPrefix| && text[..|ApiPrefix|] == ApiPrefix
    then ParseInt(UpToColon(text[|ApiPrefix|..]))
    else None
  }

  lemma {:induction false} UpToColonAfterNumeral(numeral: string, rest: string)
    requires forall i :: 0 <= i < |numeral| ==> numeral[i] != ':'
    ensures UpToColon(numeral + ": " + rest) == numeral
    decreases |numeral|
  {
    if numeral != [] {
      assert (numeral + ": " + rest)[1..] == numeral[1..] + ": " + rest;
      UpToColonAfterNumeral(numeral[1..], rest);
    }
  }

  /**
    `str(e)` shows the status code exactly when it is truthy, and the code
    shown reads back as the stored one.
   */
  lemma StrShowsStatus(e: IdswyftError)
    ensures StatusShown(Str(e)) == (if ShowsStatus(e) then e.statusCode else None)
  {
    var text := Str(e);
    if ShowsStatus(e) {
      var numeral := IntToString(e.statusCode.value);
      assert text == ApiPrefix + (numeral + ": " + Render(e.message));
      assert text[|ApiPrefix|..] == numeral + ": " + Render(e.message);
      UpToColonAfterNumeral(numeral, Render(e.message));
      ParseIntToString(e.statusCode.value);
    } else {
      assert text[8] == 'E' != ApiPrefix[8];
    }
  }

  /** `str(e)` always ends with the rendered message. */
  lemma StrEndsWithMessage(e: IdswyftError)
    ensures var text, m := Str(e), Render(e.message);
      |m| <= |text| && text[|text| - |m|..] == m
  {
  }

  /** Every subclass that pins a status code shows it; NetworkError never shows one. */
  lemma PinnedCodesAreShown(e: IdswyftError)
    requires WellFormed(e)
    ensures e.kind.Network? ==> !ShowsStatus(e) && Str(e) == PlainPrefix + Render(e.message)
    ensures !e.kind.Base? && !e.kind.Api? && !e.kind.Network? ==> ShowsStatus(e)
  {
  }

  /** A NotFound error's text names its resource, whatever else the server said. */
  lemma NotFoundStrNamesResource(resource: string)
    ensures Str(NewNotFoundError(JStr(resource))) == ApiPrefix + "404: " + resource + " not found"
  {
    assert IntToString(404) == "404" by {
      assert NatToString(404) == NatToString(40) + "4";
      assert NatToString(40) == NatToString(4) + "0";
    }
  }

  /** The messages the subclasses take when none is passed. */
  lemma DefaultMessages()
    ensures NewAuthenticationError().message == JStr("Authentication failed - check your API key")
    ensures NewNetworkError().message == JStr("Network error occurred")
    ensures NewRateLimitError().message == JStr("Rate limit exceeded")
    ensures NewRateLimitError().kind.retryAfter == JNull
    ensures NewServerError().message == JStr("Internal server error")
    ensures NewNotFoundError().kind.resource == JStr("Resource")
    ensures NewNotFoundError().message == JStr("Resource not found")
  {
  }
}
