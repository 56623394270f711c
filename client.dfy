/**
  `IdswyftClient` (client.py): the configuration fixed at construction, the
  requests the client hands to its HTTP session, and the endpoints modelled
  here.  Each endpoint builds its request, records it as sent, and turns the
  outcome of the exchange into its result.
 */
module Client {
  import opened Wrappers
  import opened Json
  import opened Exceptions
  import opened Transport
  import opened Files
  import opened Forms

  const DefaultBaseUrl := "https://api.idswyft.com"
  const DefaultTimeout := 30

  datatype HttpMethod = GET | POST | PUT

  /** What `session.request(...)` receives, apart from the URL join and the timeout. */
  datatype Request = Request(
    verb: HttpMethod,
    endpoint: string,
    data: Option<Form>,
    files: Option<map<string, PreparedFile>>,
    params: Option<Form>)

  /** `s.rstrip("/")`: every trailing '/' removed, nothing else. */
  function RStripSlash(s: string): (r: string)
    ensures |r| <= |s| && r == s[..|r|]
    ensures r == [] || r[|r| - 1] != '/'
    ensures forall i :: |r| <= i < |s| ==> s[i] == '/'
    decreases |s|
  {
    if s != [] && s[|s| - 1] == '/' then RStripSlash(s[..|s| - 1]) else s
  }

  /** Normalising the base URL twice is normalising it once. */
  lemma RStripSlashIdempotent(s: string)
    ensures RStripSlash(RStripSlash(s)) == RStripSlash(s)
  {
  }

  /** `response.get("verification", response)`, as verify_document and verify_selfie return. */
  function UnwrapVerification(r: Result<Json>): (u: Result<Json>)
    ensures r.Err? ==> u == r
    ensures r.Ok? && !r.value.JObject? ==> u == Err(AttributeError("get"))
  {
    match r
    case Err(_) => r
    case Ok(response) =>
      match response
      case JObject(m) => Ok(if "verification" in m then m["verification"] else response)
      case _ => Err(AttributeError("get"))
  }

  /** `response["verification"]`, as get_verification_status returns. */
  function RequireVerification(r: Result<Json>): (u: Result<Json>)
    ensures r.Err? ==> u == r
    ensures r.Ok? && !r.value.JObject? ==> u == Err(TypeError)
  {
    match r
    case Err(_) => r
    case Ok(response) =>
      match response
      case JObject(m) => if "verification" in m then Ok(m["verification"]) else Err(KeyError("verification"))
      case _ => Err(TypeError)
  }

  const HealthFallback := JObject(map["status" := JStr("ok"), "timestamp" := JStr("")])

  /** health_check: a NotFoundError becomes the fallback value; everything else passes through. */
  function HealthCheckResult(r: Result<Json>): (h: Result<Json>)
    ensures h.Err? ==> h == r
    ensures r.Ok? ==> h == r
  {
    if r.Err? && r.raised.Idswyft? && r.raised.error.kind.NotFound? then Ok(HealthFallback) else r
  }

  /** The two unwraps agree when the key is there; without it one returns the response, the other raises. */
  lemma UnwrapsCompared(response: map<string, Json>)
    ensures "verification" in response ==>
      UnwrapVerification(Ok(JObject(response))) == RequireVerification(Ok(JObject(response)))
      == Ok(response["verification"])
    ensures "verification" !in response ==>
      UnwrapVerification(Ok(JObject(response))) == Ok(JObject(response))
      && RequireVerification(Ok(JObject(response))) == Err(KeyError("verification"))
  {
  }

  /** A 200 without a JSON body has no "verification" key: the status lookup raises KeyError. */
  lemma StatusOfEmptySuccessRaises(timeout: int, text: string)
    ensures RequireVerification(Respond(timeout, Answered(200, Unparseable(text))))
      == Err(KeyError("verification"))
    ensures UnwrapVerification(Respond(timeout, Answered(200, Unparseable(text)))) == Ok(SuccessMarker)
  {
  }

  /** The document-upload scenario: a wrapped record is returned unwrapped. */
  lemma WrappedRecordIsUnwrapped(timeout: int, status: int, record: Json)
    requires status == 200 || status == 201
    ensures UnwrapVerification(Respond(timeout, Answered(status, Parsed(JObject(map["verification" := record])))))
      == Ok(record)
  {
  }

  /**
    health_check absorbs exactly the NotFound errors: a 404 with a dictionary
    body yields the fallback, and every other failure propagates unchanged.
   */
  lemma HealthCheckAbsorbsOnlyNotFound(timeout: int, exchange: Exchange)
    ensures var r := Respond(timeout, exchange);
      var h := HealthCheckResult(r);
      (h.Ok? <==> r.Ok? || (exchange.Answered? && exchange.status == 404
                             && ErrorData(exchange.body).JObject?))
      && (r.Err? && h.Ok? ==> h == Ok(HealthFallback))
      && (h.Err? ==> h == r)
  {
  }

  /** A 401 or a 5xx from the health endpoint still raises. */
  lemma HealthCheckPropagates(timeout: int, status: int, body: map<string, Json>)
    requires status == 401 || 500 <= status < 600
    ensures var h := HealthCheckResult(Respond(timeout, Answered(status, Parsed(JObject(body)))));
      h.Err? && h.raised.Idswyft?
      && (status == 401 ==> h.raised.error.kind == Authentication)
      && (status != 401 ==> h.raised.error.kind == Server)
  {
  }

  /** `after` is `before` with one request added at the end. */
  predicate Appended(before: seq<Request>, after: seq<Request>) {
    |after| == |before| + 1 && after[..|before|] == before
  }

  class IdswyftClient {
    const apiKey: string
    const baseUrl: string
    const timeout: int
    const sandbox: bool
    /** The requests handed to the HTTP session so far, oldest first. */
    var sent: seq<Request>

    constructor (apiKey: string, baseUrl: string := DefaultBaseUrl, timeout: int := DefaultTimeout,
                 sandbox: bool := false)
      requires apiKey != ""
      ensures this.apiKey == apiKey && this.baseUrl == RStripSlash(baseUrl)
      ensures this.timeout == timeout && this.sandbox == sandbox
      ensures sent == []
    {
      this.apiKey := apiKey;
      this.baseUrl := RStripSlash(baseUrl);
      this.timeout := timeout;
      this.sandbox := sandbox;
      sent := [];
    }

    /** `IdswyftClient(...)`: an empty API key raises ValueError before any session exists. */
    static method Create(apiKey: string, baseUrl: string := DefaultBaseUrl, timeout: int := DefaultTimeout,
                         sandbox: bool := false)
      returns (r: Result<IdswyftClient>)
      ensures r.Err? <==> apiKey == ""
      ensures r.Err? ==> r.raised == ValueError("API key is required")
      ensures r.Ok? ==> fresh(r.value) && r.value.sent == []
      ensures r.Ok? ==> r.value.apiKey == apiKey && r.value.baseUrl == RStripSlash(baseUrl)
      ensures r.Ok? ==> r.value.timeout == timeout && r.value.sandbox == sandbox
    {
      if apiKey == "" {
        r := Err(ValueError("API key is required"));
      } else {
        var client := new IdswyftClient(apiKey, baseUrl, timeout, sandbox);
        r := Ok(client);
      }
    }

    /** `_make_request`: the request is sent once, and the exchange decides the result. */
    method MakeRequest(req: Request, exchange: Exchange) returns (r: Result<Json>)
      modifies this
      ensures sent == old(sent) + [req]
      ensures r == Respond(timeout, exchange)
    {
      sent := sent + [req];
      r := Respond(timeout, exchange);
    }

    method StartVerification(userId: string, exchange: Exchange, sandbox: Option<bool> := None)
      returns (r: Result<Json>)
      modifies this
      ensures Appended(old(sent), sent)
      ensures var q := sent[|sent| - 1];
        q.verb == POST && q.endpoint == "/api/verify/start" && q.files == None && q.params == None
        && q.data.Some? && IsStartVerificationData(q.data.value, userId, sandbox)
      ensures r == Respond(timeout, exchange)
    {
      var data := StartVerificationData(userId, sandbox);
      r := MakeRequest(Request(POST, "/api/verify/start", Some(data), None, None), exchange);
    }

    /** A file that cannot be prepared raises before any request is sent. */
    method VerifyDocument(documentType: string, documentFile: FileData, fs: FileSystem, exchange: Exchange,
                          verificationId: Option<string> := None, userId: Option<string> := None,
                          webhookUrl: Option<string> := None, metadata: Option<map<string, Json>> := None)
      returns (r: Result<Json>)
      modifies this
      ensures var file := PrepareFile(documentFile, fs, "document");
        file.Err? ==> sent == old(sent) && r == Err(file.raised)
      ensures var file := PrepareFile(documentFile, fs, "document");
        file.Ok? ==>
          && Appended(old(sent), sent)
          && var q := sent[|sent| - 1];
          && q.verb == POST && q.endpoint == "/api/verify/document" && q.params == None
          && q.files == Some(map["document" := file.value])
          && q.data.Some? && IsDocumentData(q.data.value, documentType, verificationId, userId, webhookUrl, metadata)
          && r == UnwrapVerification(Respond(timeout, exchange))
    {
      var data := DocumentData(documentType, verificationId, userId, webhookUrl, metadata);
      var file := PrepareFile(documentFile, fs, "document");
      if file.Err? {
        return Err(file.raised);
      }
      var response := MakeRequest(
        Request(POST, "/api/verify/document", Some(data), Some(map["document" := file.value]), None), exchange);
      r := UnwrapVerification(response);
    }

    method VerifyBackOfId(verificationId: string, documentType: string, backOfIdFile: FileData,
                          fs: FileSystem, exchange: Exchange, metadata: Option<map<string, Json>> := None)
      returns (r: Result<Json>)
      modifies this
      ensures var file := PrepareFile(backOfIdFile, fs, "back_of_id");
        file.Err? ==> sent == old(sent) && r == Err(file.raised)
      ensures var file := PrepareFile(backOfIdFile, fs, "back_of_id");
        file.Ok? ==>
          && Appended(old(sent), sent)
          && var q := sent[|sent| - 1];
          && q.verb == POST && q.endpoint == "/api/verify/back-of-id" && q.params == None
          && q.files == Some(map["back_of_id" := file.value])
          && q.data.Some? && IsBackOfIdData(q.data.value, verificationId, documentType, metadata)
          && r == Respond(timeout, exchange)
    {
      var data := BackOfIdData(verificationId, documentType, metadata);
      var file := PrepareFile(backOfIdFile, fs, "back_of_id");
      if file.Err? {
        return Err(file.raised);
      }
      r := MakeRequest(
        Request(POST, "/api/verify/back-of-id", Some(data), Some(map["back_of_id" := file.value]), None), exchange);
    }

    method LiveCapture(verificationId: string, liveImageData: string, exchange: Exchange,
                       challengeResponse: Option<string> := None, metadata: Option<map<string, Json>> := None)
      returns (r: Result<Json>)
      modifies this
      ensures Appended(old(sent), sent)
      ensures var q := sent[|sent| - 1];
        q.verb == POST && q.endpoint == "/api/verify/live-capture" && q.files == None && q.params == None
        && q.data.Some? && IsLiveCaptureData(q.data.value, verificationId, liveImageData, challengeResponse, metadata)
      ensures r == Respond(timeout, exchange)
    {
      var data := LiveCaptureData(verificationId, liveImageData, challengeResponse, metadata);
      r := MakeRequest(Request(POST, "/api/verify/live-capture", Some(data), None, None), exchange);
    }

    method GenerateLiveToken(verificationId: string, exchange: Exchange, challengeType: Option<string> := None)
      returns (r: Result<Json>)
      modifies this
      ensures Appended(old(sent), sent)
      ensures var q := sent[|sent| - 1];
        q.verb == POST && q.endpoint == "/api/verify/generate-live-token" && q.files == None
        && q.params == None && q.data.Some? && IsLiveTokenData(q.data.value, verificationId, challengeType)
      ensures r == Respond(timeout, exchange)
    {
      var data := LiveTokenData(verificationId, challengeType);
      r := MakeRequest(Request(POST, "/api/verify/generate-live-token", Some(data), None, None), exchange);
    }

    method GetVerificationHistory(userId: string, exchange: Exchange, limit: Option<int> := None,
                                  offset: Option<int> := None)
      returns (r: Result<Json>)
      modifies this
      ensures Appended(old(sent), sent)
      ensures var q := sent[|sent| - 1];
        q.verb == GET && q.endpoint == "/api/verify/history/" + userId && q.data == None
        && q.files == None && q.params.Some? && IsPageParams(q.params.value, limit, offset)
      ensures r == Respond(timeout, exchange)
    {
      var params := PageParams(limit, offset);
      r := MakeRequest(Request(GET, "/api/verify/history/" + userId, None, None, Some(params)), exchange);
    }

    method VerifySelfie(selfieFile: FileData, fs: FileSystem, exchange: Exchange,
                        verificationId: Option<string> := None, referenceDocumentId: Option<string> := None,
                        userId: Option<string> := None, webhookUrl: Option<string> := None,
                        metadata: Option<map<string, Json>> := None)
      returns (r: Result<Json>)
      modifies this
      ensures var file := PrepareFile(selfieFile, fs, "selfie");
        file.Err? ==> sent == old(sent) && r == Err(file.raised)
      ensures var file := PrepareFile(selfieFile, fs, "selfie");
        file.Ok? ==>
          && Appended(old(sent), sent)
          && var q := sent[|sent| - 1];
          && q.verb == POST && q.endpoint == "/api/verify/selfie" && q.params == None
          && q.files == Some(map["selfie" := file.value])
          && q.data.Some?
          && IsSelfieData(q.data.value, verificationId, referenceDocumentId, userId, webhookUrl, metadata)
          && r == UnwrapVerification(Respond(timeout, exchange))
    {
      var data := SelfieData(verificationId, referenceDocumentId, userId, webhookUrl, metadata);
      var file := PrepareFile(selfieFile, fs, "selfie");
      if file.Err? {
        return Err(file.raised);
      }
      var response := MakeRequest(
        Request(POST, "/api/verify/selfie", Some(data), Some(map["selfie" := file.value]), None), exchange);
      r := UnwrapVerification(response);
    }

    method GetVerificationStatus(verificationId: string, exchange: Exchange) returns (r: Result<Json>)
      modifies this
      ensures sent == old(sent) + [Request(GET, "/api/verify/status/" + verificationId, None, None, None)]
      ensures r == RequireVerification(Respond(timeout, exchange))
    {
      var response := MakeRequest(Request(GET, "/api/verify/status/" + verificationId, None, None, None), exchange);
      r := RequireVerification(response);
    }

    method ListVerifications(exchange: Exchange, status: Option<string> := None, limit: Option<int> := None,
                             offset: Option<int> := None, userId: Option<string> := None)
      returns (r: Result<Json>)
      modifies this
      ensures Appended(old(sent), sent)
      ensures var q := sent[|sent| - 1];
        q.verb == GET && q.endpoint == "/api/verify/list" && q.data == None && q.files == None
        && q.params.Some? && IsListParams(q.params.value, status, limit, offset, userId)
      ensures r == Respond(timeout, exchange)
    {
      var params := ListParams(status, limit, offset, userId);
      r := MakeRequest(Request(GET, "/api/verify/list", None, None, Some(params)), exchange);
    }

    method GetApiActivity(exchange: Exchange, limit: Option<int> := None, offset: Option<int> := None,
                          startDate: Option<string> := None, endDate: Option<string> := None)
      returns (r: Result<Json>)
      modifies this
      ensures Appended(old(sent), sent)
      ensures var q := sent[|sent| - 1];
        q.verb == GET && q.endpoint == "/api/developer/activity" && q.data == None && q.files == None
        && q.params.Some? && IsActivityParams(q.params.value, limit, offset, startDate, endDate)
      ensures r == Respond(timeout, exchange)
    {
      var params := ActivityParams(limit, offset, startDate, endDate);
      r := MakeRequest(Request(GET, "/api/developer/activity", None, None, Some(params)), exchange);
    }

    method RegisterWebhook(url: string, exchange: Exchange, events: Option<seq<string>> := None,
                           secret: Option<string> := None)
      returns (r: Result<Json>)
      modifies this
      ensures Appended(old(sent), sent)
      ensures var q := sent[|sent| - 1];
        q.verb == POST && q.endpoint == "/api/webhooks/register" && q.files == None && q.params == None
        && q.data.Some? && IsRegisterWebhookData(q.data.value, url, events, secret)
      ensures r == Respond(timeout, exchange)
    {
      var data := RegisterWebhookData(url, events, secret);
      r := MakeRequest(Request(POST, "/api/webhooks/register", Some(data), None, None), exchange);
    }

    method UpdateWebhook(webhookId: string, exchange: Exchange, url: Option<string> := None,
                         events: Option<seq<string>> := None, secret: Option<string> := None)
      returns (r: Result<Json>)
      modifies this
      ensures Appended(old(sent), sent)
      ensures var q := sent[|sent| - 1];
        q.verb == PUT && q.endpoint == "/api/webhooks/" + webhookId && q.files == None && q.params == None
        && q.data.Some? && IsUpdateWebhookData(q.data.value, url, events, secret)
      ensures r == Respond(timeout, exchange)
    {
      var data := UpdateWebhookData(url, events, secret);
      r := MakeRequest(Request(PUT, "/api/webhooks/" + webhookId, Some(data), None, None), exchange);
    }

    method GetWebhookDeliveries(webhookId: string, exchange: Exchange, limit: Option<int> := None,
                                offset: Option<int> := None)
      returns (r: Result<Json>)
      modifies this
      ensures Appended(old(sent), sent)
      ensures var q := sent[|sent| - 1];
        q.verb == GET && q.endpoint == "/api/webhooks/" + webhookId + "/deliveries" && q.data == None
        && q.files == None && q.params.Some? && IsPageParams(q.params.value, limit, offset)
      ensures r == Respond(timeout, exchange)
    {
      var params := PageParams(limit, offset);
      r := MakeRequest(Request(GET, "/api/webhooks/" + webhookId + "/deliveries", None, None, Some(params)),
                       exchange);
    }

    method HealthCheck(exchange: Exchange) returns (r: Result<Json>)
      modifies this
      ensures sent == old(sent) + [Request(GET, "/api/health", None, None, None)]
      ensures r == HealthCheckResult(Respond(timeout, exchange))
    {
      var response := MakeRequest(Request(GET, "/api/health", None, None, None), exchange);
      r := HealthCheckResult(response);
    }
  }
}
