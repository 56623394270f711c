/**
  `IdswyftClient._make_request` and `_raise_for_status` (client.py) with the
  HTTP round trip replaced by its outcome: turning one outcome into one
  returned JSON value or one raised error.
 */
module Transport {
  import opened Wrappers
  import opened Decimal
  import opened Json
  import opened Exceptions

  /** A response body: JSON that parsed, or text that did not. */
  datatype Body = Parsed(json: Json) | Unparseable(text: string)

  /** What the HTTP session produced for one request. */
  datatype Exchange =
    | Timeout                        // requests.exceptions.Timeout
    | ConnectionFailure              // requests.exceptions.ConnectionError
    | OtherFailure(reason: string)   // any other RequestException, with str(e)
    | Answered(status: int, body: Body)

  /** The value returned for a 200/201 whose body is not JSON. */
  const SuccessMarker := JObject(map["message" := JStr("Success")])

  /** The error data read from a failed response; unparseable text is wrapped. */
  function ErrorData(body: Body): (d: Json)
    ensures body.Parsed? ==> d == body.json
    ensures body.Unparseable? ==>
              d.JObject? && d.fields.Keys == {"error", "message"}
              && d.fields["error"] == JStr("Unknown error") && d.fields["message"] == JStr(body.text)
  {
    match body
    case Parsed(j) => j
    case Unparseable(text) => JObject(map["error" := JStr("Unknown error"), "message" := JStr(text)])
  }

  /** The class of an error kind: the kind with its attributes cleared. */
  function ClassOf(k: Kind): Kind {
    match k
    case Validation(_, _) => Validation(JNull, JNull)
    case RateLimit(_) => RateLimit(JNull)
    case NotFound(_) => NotFound(JNull)
    case _ => k
  }

  /** The status codes the SDK gives their own error class. */
  const PinnedStatus: map<int, Kind> :=
    map[400 := Validation(JNull, JNull), 401 := Authentication, 404 := NotFound(JNull), 429 := RateLimit(JNull)]

  /**
    The classification table as a reference: the pinned codes, then the 5xx
    class of section 15.6 of RFC 9110, then the generic API error.
   */
  function ExpectedKind(status: int): Kind {
    if status in PinnedStatus then PinnedStatus[status]
    else if status / 100 == 5 then Server
    else Api
  }

  /** `_raise_for_status(status_code, error_data)`: the error it raises. */
  function RaiseForStatus(status: int, errorData: map<string, Json>): (e: IdswyftError)
    ensures WellFormed(e) && IsApiError(e)
    ensures e.kind.Validation? <==> status == 400
    ensures e.kind.Authentication? <==> status == 401
    ensures e.kind.NotFound? <==> status == 404
    ensures e.kind.RateLimit? <==> status == 429
    ensures e.kind.Server? <==> 500 <= status < 600
    ensures e.kind.Api? ==> e.statusCode == Some(status)
    ensures !e.kind.NotFound? ==> e.message == Get(errorData, "message", JStr("API request failed"))
    ensures e.kind.Validation? ==> e.kind.field == Get(errorData, "field")
    ensures e.kind.RateLimit? ==> e.kind.retryAfter == Get(errorData, "retry_after")
    ensures e.kind.NotFound? ==> e.kind.resource == Get(errorData, "resource", DefaultResource)
    ensures e.kind.Api? ==> e.errorCode == Get(errorData, "code") && e.details == Get(errorData, "details")
  {
    var message := Get(errorData, "message", JStr("API request failed"));
    var errorCode := Get(errorData, "code");
    var details := Get(errorData, "details");
    if status == 400 then
      NewValidationError(message, Get(errorData, "field"), if details.JList? then details else JNull)
    else if status == 401 then
      NewAuthenticationError(message)
    else if status == 404 then
      NewNotFoundError(Get(errorData, "resource", DefaultResource))
    else if status == 429 then
      NewRateLimitError(message, Get(errorData, "retry_after"))
    else if 500 <= status < 600 then
      NewServerError(message)
    else
      NewApiError(message, Some(status), errorCode, details)
  }

  /** `_make_request` after the request was issued: the value returned or what is raised. */
  function Respond(timeout: int, exchange: Exchange): (r: Result<Json>)
    ensures r.Ok? <==> exchange.Answered? && (exchange.status == 200 || exchange.status == 201)
    ensures r.Ok? && exchange.body.Parsed? ==> r.value == exchange.body.json
    ensures r.Ok? && exchange.body.Unparseable? ==> r.value == SuccessMarker
    ensures !exchange.Answered? ==> r.Err? && r.raised.Idswyft? && r.raised.error.kind.Network?
    ensures r.Err? ==> r.raised.Idswyft? || (r.raised.AttributeError? && !ErrorData(exchange.body).JObject?)
    ensures r.Err? && r.raised.Idswyft? ==> WellFormed(r.raised.error)
    ensures exchange.Answered? && exchange.status != 200 && exchange.status != 201 ==>
      var d := ErrorData(exchange.body);
      r == (if d.JObject? then Err(Idswyft(RaiseForStatus(exchange.status, d.fields)))
            else Err(AttributeError("get")))
  {
    match exchange
    case Timeout =>
      Err(Idswyft(NewNetworkError(JStr("Request timed out after " + IntToString(timeout) + " seconds"))))
    case ConnectionFailure =>
      Err(Idswyft(NewNetworkError(JStr("Failed to connect to Idswyft API"))))
    case OtherFailure(reason) =>
      Err(Idswyft(NewNetworkError(JStr("Network error: " + reason))))
    case Answered(status, body) =>
      if status == 200 || status == 201 then
        Ok(if body.Parsed? then body.json else SuccessMarker)
      else
        match ErrorData(body)
        case JObject(d) => Err(Idswyft(RaiseForStatus(status, d)))
        case _ => Err(AttributeError("get"))
  }

  /** The kind raised depends on the status alone and agrees with the reference table. */
  lemma ClassificationFollowsTable(status: int, errorData: map<string, Json>)
    ensures ClassOf(RaiseForStatus(status, errorData).kind) == ExpectedKind(status)
  {
  }

  /** Two error bodies with the same status raise the same kind, whatever keys they hold. */
  lemma ClassificationIgnoresBody(status: int, d1: map<string, Json>, d2: map<string, Json>)
    ensures ClassOf(RaiseForStatus(status, d1).kind) == ClassOf(RaiseForStatus(status, d2).kind)
  {
    ClassificationFollowsTable(status, d1);
    ClassificationFollowsTable(status, d2);
  }

  /** A status the table does not name yields a generic API error carrying status, code and details. */
  lemma UnnamedStatusIsGenericApiError(status: int, errorData: map<string, Json>)
    requires ExpectedKind(status) == Api
    ensures var e := RaiseForStatus(status, errorData);
      e.kind == Api && e.statusCode == Some(status)
      && e.errorCode == Get(errorData, "code") && e.details == Get(errorData, "details")
      && e.message == Get(errorData, "message", JStr("API request failed"))
  {
    ClassificationFollowsTable(status, errorData);
  }

  /** Missing keys never fail: each one takes its default. */
  lemma MissingKeysTakeDefaults(status: int, errorData: map<string, Json>)
    ensures var e := RaiseForStatus(status, errorData);
      && ("message" !in errorData && !e.kind.NotFound? ==> e.message == JStr("API request failed"))
      && ("resource" !in errorData && e.kind.NotFound? ==>
            e.kind.resource == DefaultResource && e.message == JStr("Resource not found"))
      && ("retry_after" !in errorData && e.kind.RateLimit? ==> e.kind.retryAfter == JNull)
      && ("field" !in errorData && e.kind.Validation? ==> e.kind.field == JNull)
      && (e.kind.Validation? ==> e.kind.validationErrors.JList?)
      && ("code" !in errorData && e.kind.Api? ==> e.errorCode == JNull)
  {
  }

  /** `details` becomes the validation errors exactly when it is a list. */
  lemma ValidationErrorsFromDetails(errorData: map<string, Json>)
    ensures var e := RaiseForStatus(400, errorData);
      var details := Get(errorData, "details");
      e.kind.validationErrors == (if details.JList? then details else JList([]))
  {
  }

  /** A NotFound error ignores any message the server sent. */
  lemma NotFoundIgnoresMessage(d1: map<string, Json>, d2: map<string, Json>)
    requires Get(d1, "resource", DefaultResource) == Get(d2, "resource", DefaultResource)
    ensures RaiseForStatus(404, d1) == RaiseForStatus(404, d2)
  {
  }

  /** Every 5xx becomes a ServerError whose own status code is 500. */
  lemma ServerErrorPinsFiveHundred(status: int, errorData: map<string, Json>)
    requires 500 <= status < 600
    ensures var e := RaiseForStatus(status, errorData);
      e.kind == Server && e.statusCode == Some(500) && e.errorCode == JStr("server_error")
  {
  }

  /** An unparseable error body keeps its raw text as the message. */
  lemma UnparseableErrorKeepsText(timeout: int, status: int, text: string)
    requires status != 200 && status != 201 && status != 404
    ensures var r := Respond(timeout, Answered(status, Unparseable(text)));
      r.Err? && r.raised.Idswyft? && r.raised.error.message == JStr(text)
  {
  }

  /** Transport failures are always NetworkErrors; a timeout names the configured timeout. */
  lemma TransportFailuresAreNetworkErrors(timeout: int, exchange: Exchange)
    requires !exchange.Answered?
    ensures var r := Respond(timeout, exchange);
      r == Err(Idswyft(r.raised.error)) && r.raised.error.kind == Network
      && r.raised.error.statusCode == None && r.raised.error.errorCode == JStr("network_error")
    ensures exchange.ConnectionFailure? ==>
      Respond(timeout, exchange).raised.error.message == JStr("Failed to connect to Idswyft API")
    ensures exchange.OtherFailure? ==>
      var m := Respond(timeout, exchange).raised.error.message;
      m.JStr? && |exchange.reason| <= |m.s| && m.s[|m.s| - |exchange.reason|..] == exchange.reason
      && |"Network error: "| <= |m.s| && m.s[..|"Network error: "|] == "Network error: "
    ensures exchange.Timeout? ==>
      var m := Respond(timeout, exchange).raised.error.message;
      var prefix := "Request timed out after ";
      m.JStr? && |prefix| + 8 <= |m.s| && m.s[..|prefix|] == prefix
      && ParseInt(m.s[|prefix|..|m.s| - 8]) == Some(timeout)
      && m.s[|m.s| - 8..] == " seconds"
  {
    if exchange.Timeout? {
      var numeral := IntToString(timeout);
      var m := "Request timed out after " + numeral + " seconds";
      assert m[|"Request timed out after "|..|m| - 8] == numeral;
      ParseIntToString(timeout);
    }
  }

  /** The test scenario: a 429 with a `retry_after` of 60. */
  lemma RateLimitScenario(timeout: int)
    ensures var body := JObject(map["message" := JStr("Rate limit exceeded"), "retry_after" := JInt(60)]);
      var r := Respond(timeout, Answered(429, Parsed(body)));
      r.Err? && r.raised.Idswyft? && r.raised.error.kind == RateLimit(JInt(60))
      && r.raised.error.message == JStr("Rate limit exceeded")
  {
  }
}
