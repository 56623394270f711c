/**
  The form data and query parameters each endpoint of `IdswyftClient`
  (client.py) builds from its optional arguments.  The `Is...` predicates
  state the omission rules declaratively, one per endpoint; the methods build
  the dictionary the way the client does, by successive conditional inserts,
  and are proved to meet them.
 */
module Forms {
  import opened Wrappers
  import opened Decimal
  import opened Json

  /** A value placed in the dictionary handed to the HTTP session. */
  datatype FormValue =
    | Text(text: string)                  // a str
    | Flag(flag: bool)                    // a bool
    | Items(items: seq<string>)           // a list of str
    | JsonText(doc: map<string, Json>)    // json.dumps(doc): the mapping sent as one JSON string

  type Form = map<string, FormValue>

  /** Python truthiness of the optional arguments (`if arg:`). */
  predicate TextGiven(arg: Option<string>) { arg.Some? && arg.value != "" }
  predicate CountGiven(arg: Option<int>) { arg.Some? && arg.value != 0 }
  predicate ItemsGiven(arg: Option<seq<string>>) { arg.Some? && arg.value != [] }
  predicate MetadataGiven(arg: Option<map<string, Json>>) { arg.Some? && arg.value != map[] }

  predicate Holds(f: Form, key: string, v: FormValue) {
    key in f && f[key] == v
  }

  /** `if arg: f[key] = arg` */
  predicate TextIfTruthy(f: Form, key: string, arg: Option<string>) {
    if TextGiven(arg) then Holds(f, key, Text(arg.value)) else key !in f
  }

  /** `if arg is not None: f[key] = arg` */
  predicate TextIfNotNone(f: Form, key: string, arg: Option<string>) {
    if arg.Some? then Holds(f, key, Text(arg.value)) else key !in f
  }

  predicate FlagIfNotNone(f: Form, key: string, arg: Option<bool>) {
    if arg.Some? then Holds(f, key, Flag(arg.value)) else key !in f
  }

  predicate ItemsIfTruthy(f: Form, key: string, arg: Option<seq<string>>) {
    if ItemsGiven(arg) then Holds(f, key, Items(arg.value)) else key !in f
  }

  predicate ItemsIfNotNone(f: Form, key: string, arg: Option<seq<string>>) {
    if arg.Some? then Holds(f, key, Items(arg.value)) else key !in f
  }

  /** `if arg: f[key] = str(arg)` */
  predicate CountIfTruthy(f: Form, key: string, arg: Option<int>) {
    if CountGiven(arg) then Holds(f, key, Text(IntToString(arg.value))) else key !in f
  }

  /** `if metadata: f["metadata"] = json.dumps(metadata)` */
  predicate MetadataIfTruthy(f: Form, arg: Option<map<string, Json>>) {
    if MetadataGiven(arg) then Holds(f, "metadata", JsonText(arg.value)) else "metadata" !in f
  }

  // ----- start_verification -----

  predicate IsStartVerificationData(f: Form, userId: string, sandbox: Option<bool>) {
    && f.Keys <= {"user_id", "sandbox"}
    && Holds(f, "user_id", Text(userId))
    && FlagIfNotNone(f, "sandbox", sandbox)
  }

  method StartVerificationData(userId: string, sandbox: Option<bool>) returns (data: Form)
    ensures IsStartVerificationData(data, userId, sandbox)
  {
    data := map["user_id" := Text(userId)];
    if sandbox.Some? {
      data := data["sandbox" := Flag(sandbox.value)];
    }
  }

  // ----- verify_document -----

  predicate IsDocumentData(f: Form, documentType: string, verificationId: Option<string>,
                           userId: Option<string>, webhookUrl: Option<string>,
                           metadata: Option<map<string, Json>>) {
    && f.Keys <= {"document_type", "verification_id", "user_id", "webhook_url", "metadata"}
    && Holds(f, "document_type", Text(documentType))
    && TextIfTruthy(f, "verification_id", verificationId)
    && TextIfTruthy(f, "user_id", userId)
    && TextIfTruthy(f, "webhook_url", webhookUrl)
    && MetadataIfTruthy(f, metadata)
  }

  method DocumentData(documentType: string, verificationId: Option<string>, userId: Option<string>,
                      webhookUrl: Option<string>, metadata: Option<map<string, Json>>)
    returns (data: Form)
    ensures IsDocumentData(data, documentType, verificationId, userId, webhookUrl, metadata)
  {
    data := map["document_type" := Text(documentType)];
    if TextGiven(verificationId) {
      data := data["verification_id" := Text(verificationId.value)];
    }
    if TextGiven(userId) {
      data := data["user_id" := Text(userId.value)];
    }
    if TextGiven(webhookUrl) {
      data := data["webhook_url" := Text(webhookUrl.value)];
    }
    if MetadataGiven(metadata) {
      data := data["metadata" := JsonText(metadata.value)];
    }
  }

  // ----- verify_back_of_id -----

  predicate IsBackOfIdData(f: Form, verificationId: string, documentType: string,
                           metadata: Option<map<string, Json>>) {
    && f.Keys <= {"verification_id", "document_type", "metadata"}
    && Holds(f, "verification_id", Text(verificationId))
    && Holds(f, "document_type", Text(documentType))
    && MetadataIfTruthy(f, metadata)
  }

  method BackOfIdData(verificationId: string, documentType: string, metadata: Option<map<string, Json>>)
    returns (data: Form)
    ensures IsBackOfIdData(data, verificationId, documentType, metadata)
  {
    data := map["verification_id" := Text(verificationId), "document_type" := Text(documentType)];
    if MetadataGiven(metadata) {
      data := data["metadata" := JsonText(metadata.value)];
    }
  }

  // ----- live_capture -----

  predicate IsLiveCaptureData(f: Form, verificationId: string, liveImageData: string,
                              challengeResponse: Option<string>, metadata: Option<map<string, Json>>) {
    && f.Keys <= {"verification_id", "live_image_data", "challenge_response", "metadata"}
    && Holds(f, "verification_id", Text(verificationId))
    && Holds(f, "live_image_data", Text(liveImageData))
    && TextIfTruthy(f, "challenge_response", challengeResponse)
    && MetadataIfTruthy(f, metadata)
  }

  method LiveCaptureData(verificationId: string, liveImageData: string,
                         challengeResponse: Option<string>, metadata: Option<map<string, Json>>)
    returns (data: Form)
    ensures IsLiveCaptureData(data, verificationId, liveImageData, challengeResponse, metadata)
  {
    data := map["verification_id" := Text(verificationId), "live_image_data" := Text(liveImageData)];
    if TextGiven(challengeResponse) {
      data := data["challenge_response" := Text(challengeResponse.value)];
    }
    if MetadataGiven(metadata) {
      data := data["metadata" := JsonText(metadata.value)];
    }
  }

  // ----- generate_live_token -----

  predicate IsLiveTokenData(f: Form, verificationId: string, challengeType: Option<string>) {
    && f.Keys <= {"verification_id", "challenge_type"}
    && Holds(f, "verification_id", Text(verificationId))
    && TextIfTruthy(f, "challenge_type", challengeType)
  }

  method LiveTokenData(verificationId: string, challengeType: Option<string>) returns (data: Form)
    ensures IsLiveTokenData(data, verificationId, challengeType)
  {
    data := map["verification_id" := Text(verificationId)];
    if TextGiven(challengeType) {
      data := data["challenge_type" := Text(challengeType.value)];
    }
  }

  // ----- verify_selfie -----

  predicate IsSelfieData(f: Form, verificationId: Option<string>, referenceDocumentId: Option<string>,
                         userId: Option<string>, webhookUrl: Option<string>,
                         metadata: Option<map<string, Json>>) {
    && f.Keys <= {"verification_id", "reference_document_id", "user_id", "webhook_url", "metadata"}
    && TextIfTruthy(f, "verification_id", verificationId)
    && TextIfTruthy(f, "reference_document_id", referenceDocumentId)
    && TextIfTruthy(f, "user_id", userId)
    && TextIfTruthy(f, "webhook_url", webhookUrl)
    && MetadataIfTruthy(f, metadata)
  }

  method SelfieData(verificationId: Option<string>, referenceDocumentId: Option<string>,
                    userId: Option<string>, webhookUrl: Option<string>,
                    metadata: Option<map<string, Json>>)
    returns (data: Form)
    ensures IsSelfieData(data, verificationId, referenceDocumentId, userId, webhookUrl, metadata)
  {
    data := map[];
    if TextGiven(verificationId) {
      data := data["verification_id" := Text(verificationId.value)];
    }
    if TextGiven(referenceDocumentId) {
      data := data["reference_document_id" := Text(referenceDocumentId.value)];
    }
    if TextGiven(userId) {
      data := data["user_id" := Text(userId.value)];
    }
    if TextGiven(webhookUrl) {
      data := data["webhook_url" := Text(webhookUrl.value)];
    }
    if MetadataGiven(metadata) {
      data := data["metadata" := JsonText(metadata.value)];
    }
  }

  // ----- get_verification_history, get_webhook_deliveries -----

  predicate IsPageParams(f: Form, limit: Option<int>, offset: Option<int>) {
    && f.Keys <= {"limit", "offset"}
    && CountIfTruthy(f, "limit", limit)
    && CountIfTruthy(f, "offset", offset)
  }

  method PageParams(limit: Option<int>, offset: Option<int>) returns (params: Form)
    ensures IsPageParams(params, limit, offset)
  {
    params := map[];
    if CountGiven(limit) {
      params := params["limit" := Text(IntToString(limit.value))];
    }
    if CountGiven(offset) {
      params := params["offset" := Text(IntToString(offset.value))];
    }
  }

  // ----- list_verifications -----

  predicate IsListParams(f: Form, status: Option<string>, limit: Option<int>, offset: Option<int>,
                         userId: Option<string>) {
    && f.Keys <= {"status", "limit", "offset", "user_id"}
    && TextIfTruthy(f, "status", status)
    && CountIfTruthy(f, "limit", limit)
    && CountIfTruthy(f, "offset", offset)
    && TextIfTruthy(f, "user_id", userId)
  }

  method ListParams(status: Option<string>, limit: Option<int>, offset: Option<int>,
                    userId: Option<string>)
    returns (params: Form)
    ensures IsListParams(params, status, limit, offset, userId)
  {
    params := map[];
    if TextGiven(status) {
      params := params["status" := Text(status.value)];
    }
    if CountGiven(limit) {
      params := params["limit" := Text(IntToString(limit.value))];
    }
    if CountGiven(offset) {
      params := params["offset" := Text(IntToString(offset.value))];
    }
    if TextGiven(userId) {
      params := params["user_id" := Text(userId.value)];
    }
  }

  // ----- get_api_activity -----

  predicate IsActivityParams(f: Form, limit: Option<int>, offset: Option<int>,
                             startDate: Option<string>, endDate: Option<string>) {
    && f.Keys <= {"limit", "offset", "start_date", "end_date"}
    && CountIfTruthy(f, "limit", limit)
    && CountIfTruthy(f, "offset", offset)
    && TextIfTruthy(f, "start_date", startDate)
    && TextIfTruthy(f, "end_date", endDate)
  }

  method ActivityParams(limit: Option<int>, offset: Option<int>,
                        startDate: Option<string>, endDate: Option<string>)
    returns (params: Form)
    ensures IsActivityParams(params, limit, offset, startDate, endDate)
  {
    params := map[];
    if CountGiven(limit) {
      params := params["limit" := Text(IntToString(limit.value))];
    }
    if CountGiven(offset) {
      params := params["offset" := Text(IntToString(offset.value))];
    }
    if TextGiven(startDate) {
      params := params["start_date" := Text(startDate.value)];
    }
    if TextGiven(endDate) {
      params := params["end_date" := Text(endDate.value)];
    }
  }

  // ----- register_webhook -----

  predicate IsRegisterWebhookData(f: Form, url: string, events: Option<seq<string>>,
                                  secret: Option<string>) {
    && f.Keys <= {"url", "events", "secret"}
    && Holds(f, "url", Text(url))
    && ItemsIfTruthy(f, "events", events)
    && TextIfTruthy(f, "secret", secret)
  }

  method RegisterWebhookData(url: string, events: Option<seq<string>>, secret: Option<string>)
    returns (data: Form)
    ensures IsRegisterWebhookData(data, url, events, secret)
  {
    data := map["url" := Text(url)];
    if ItemsGiven(events) {
      data := data["events" := Items(events.value)];
    }
    if TextGiven(secret) {
      data := data["secret" := Text(secret.value)];
    }
  }

  // ----- update_webhook (the definition that is in effect) -----

  predicate IsUpdateWebhookData(f: Form, url: Option<string>, events: Option<seq<string>>,
                                secret: Option<string>) {
    && f.Keys <= {"url", "events", "secret"}
    && TextIfTruthy(f, "url", url)
    && ItemsIfNotNone(f, "events", events)
    && TextIfNotNone(f, "secret", secret)
  }

  method UpdateWebhookData(url: Option<string>, events: Option<seq<string>>, secret: Option<string>)
    returns (data: Form)
    ensures IsUpdateWebhookData(data, url, events, secret)
  {
    data := map[];
    if TextGiven(url) {
      data := data["url" := Text(url.value)];
    }
    if events.Some? {
      data := data["events" := Items(events.value)];
    }
    if secret.Some? {
      data := data["secret" := Text(secret.value)];
    }
  }

  // ----- properties of the rules -----

  /** A count is sent exactly when non-zero, as a string that reads back as the count. */
  lemma CountSentAsItsString(f: Form, key: string, n: int)
    requires CountIfTruthy(f, key, Some(n))
    ensures key in f <==> n != 0
    ensures key in f ==> f[key].Text? && ParseInt(f[key].text) == Some(n)
  {
    if n != 0 {
      ParseIntToString(n);
    }
  }

  /**
    Explicit empty values: update_webhook keeps `events=[]` and `secret=""`
    but drops `url=""`; register_webhook drops all three.
   */
  lemma WebhookEmptyValues(f: Form, g: Form)
    requires IsUpdateWebhookData(f, Some(""), Some([]), Some(""))
    requires IsRegisterWebhookData(g, "", Some([]), Some(""))
    ensures f == map["events" := Items([]), "secret" := Text("")]
    ensures g == map["url" := Text("")]
  {
    assert f.Keys == {"events", "secret"};
    assert g.Keys == {"url"};
  }

  /** start_verification sends `sandbox=False`; it checks `is not None`, not truthiness. */
  lemma SandboxFalseIsSent(f: Form, userId: string)
    requires IsStartVerificationData(f, userId, Some(false))
    ensures f == map["user_id" := Text(userId), "sandbox" := Flag(false)]
  {
    assert f.Keys == {"user_id", "sandbox"};
  }

  /** The rules fix the document form completely: two forms meeting them are equal. */
  lemma DocumentDataDetermined(f: Form, g: Form, documentType: string, verificationId: Option<string>,
                               userId: Option<string>, webhookUrl: Option<string>,
                               metadata: Option<map<string, Json>>)
    requires IsDocumentData(f, documentType, verificationId, userId, webhookUrl, metadata)
    requires IsDocumentData(g, documentType, verificationId, userId, webhookUrl, metadata)
    ensures f == g
  {
    assert f.Keys == g.Keys;
  }
}
